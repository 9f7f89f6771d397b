# Exchange-rate service: a verified model

The repository serves live and historical exchange rates against KRW. One of several instances
is elected leader through a Redis lease and collects a WebSocket feed; its events go through a
Redis cache that decides what is published; users keep ordered watchlists and read rates by
HTTP and SSE. This project models the parts whose behaviour is easy to get wrong over a whole
run, and proves what they keep.

Each part has two layers. Classes carry the fields of the original services, and their methods
do what the original methods do, branch by branch; the `ensures` of each method ties the new
state to a specification function of the old one. State machines built on the same functions
then describe whole runs (every step, every order, any number of instances, sockets, events or
users), and the lemmas are about those runs.

| file | part |
|---|---|
| `Options.dfy` | `Option`, `Result` and what several modules share |
| `RedisLock.dfy` | the lock cell: SET NX EX, EXPIRE, DEL, GET |
| `LeaderElection.dfy` | one instance: role, timer handles, running intervals |
| `ElectionCluster.dfy` | any number of instances around one lock; every command is sent, executed and answered separately |
| `ElectionSafety.dfy` | the inductive invariant, mutual exclusion |
| `ElectionExact.dfy` | runs with two leaders; exclusion holds exactly under the timing bound |
| `ElectionRecovery.dfy` | how long the cluster can be without a live owner of the lock |
| `ElectionLeadership.dfy`, `ElectionVacancy.dfy` | when an owner leads, and how long the cluster can be without a leader |
| `ElectionRace.dfy` | the race that deposes an owner, minute after minute |
| `ElectionProgress.dfy` | every run goes on to any later time |
| `JobLock.dfy` | `runWithLock` |
| `RateCache.dfy` | the rate hash, the handler of the feed, warm-up and refill |
| `RateRuns.dfy` | whole runs of the handler as a description by days; conservation |
| `RateInterleaving.dfy`, `RateConfluence.dfy` | handlers that overlap at their awaits, and when their order does not matter |
| `RateOutcomes.dfy` | what one event, a refill and the rounding do, field by field |
| `RateBounds.dfy` | when the stored change bounds the error of the cache |
| `RateReader.dfy` | the cache-hit reader and its error bounds |
| `FeedServices.dfy`, `FeedRuns.dfy` | socket client, mock and manager; runs of the feed |
| `Watchlist.dfy`, `WatchlistRuns.dfy`, `WatchlistPaging.dfy` | table, reorder, cursor paging |
| `WatchlistRaces.dfy` | creations whose queries overlap |
| `DailyRates.dfy` | daily rates, gap filling, date loops |
| `SseChannels.dfy` | reference-counted SSE channels |
| `QuoteKeys.dfy` | quote keys and their parsers |

Clocks, API replies, the outcome of a job and the answer of an unordered query are parameters
of the step that meets them. `dafny verify dfyconfig.toml` checks all of it.

## What came out

- **Election.** Neither EXPIRE nor DEL compares the value of the lock, so exclusion rests on
  the clock. It holds over every run if and only if *reply + renewal + release* stays under
  15 seconds, the time from a renewal (45 s) to the expiry (60 s). The release delay matters as
  much as the other two: a late DEL removes the lock of the next owner. The watcher handle is
  overwritten without clearing the old interval, so instances collect watchers. Exclusion and
  the bound on the time without a live *owner* of the lock hold all the same. But two watchers
  can send two SETs, and `elect` steps down on the second, which the instance's own lock
  rejects. Then nobody *leads* until the lock expires, and whatever the delays this can happen
  again every minute, any number of times. Owners lead if and only if no owner is rejected like that, which
  takes a watcher that runs while its instance still waits for a GET or SET. Without it the time
  without a leader is bounded like the time without an owner; with it, by a minute more.
- **Rates.** A run equals a description by days. With overlapping handlers this holds within a
  day up to order. Beyond the stored day it holds only where no two events, and no event and
  the cache, share a day; that is the exact condition.
  The error of the cache is bounded by the distance to the opening and the band. The *stored*
  change is no such bound after a refill, because an API may round it; when it is one is proved.
- **Feed.** Primary and secondary never emit together, and a silent primary is given up within
  70 seconds. But a manager that connects again while the mock is active leaves a subscription
  behind that no disconnect ends. And a socket given up while it connects may open unseen; the
  service itself never closes it, whatever happens later.
- **Watchlist.** Paging is exact if and only if orders are distinct. Over whole runs they are
  distinct if and only if every committed reorder meets the condition proved. Creations that
  overlap can tie and exceed ten rows; when they do is proved as well.
- **History.** For bounds with a time of day the last day can be left out, and a database that
  compares the start by its instant makes every call ask the API again.

## Where code and description differ

The model follows the code.

- The comment above `handleLatestRateUpdate` (exchange-rate.service.ts:435) says that a raw row
  is stored in every case. A miss (454-459) and a rollover (466-480) return before that.
- The same comment says that a miss skips the event. The code refills every supported currency.
- A reconnect is scheduled with the retry limit as its delay, so after 3 milliseconds
  (coin-api-ws.service.ts:93-126).
- The reorder passes order and user to the lookup in exchanged places
  (watchlist.service.ts:92-95 against watchlist.repository.ts:110-113), so the row whose order
  should be swapped is looked up under the user whose number is the new order.
- The cursor and `hasNextPage` are tested for truth, so 0 counts as no cursor.

## Model

| member | source | states |
|---|---|---|
| `ElectionExact.ExclusiveExactlyWhenTimely` | src/infrastructure/cluster/leader-election.service.ts:28-113 | Over all runs of any number of instances (crashes, clean shutdowns, leaked watchers, dead commands that still arrive) at most one leads, if and only if reply delay + renewal delay + release delay < 15000 ms. No command compares the value of the lock |
| `ElectionSafety.MutualExclusion` | src/infrastructure/cluster/leader-election.service.ts:39-97 | Under that bound every reachable state has at most one leader, and the leader owns the lock at that instant |
| `ElectionSafety.StepKeeps` | src/infrastructure/cluster/leader-election.service.ts:28-113 | The inductive invariant that carries it (renewals scheduled or in flight in time, grants that meet no other grant, DELs that arrive while their sender still owns the lock) is kept by every step |
| `ElectionProgress.RunsGoOn` | src/infrastructure/cluster/leader-election.service.ts:82-113 | The delay bounds never stop time: every run of timely instances goes on to any later time by timers, commands and the clock alone, without a death |
| `ElectionSafety.SetIsSentExactlyWhen` | src/infrastructure/cluster/leader-election.service.ts:86-95 | A step sends a SET if and only if the market is open and an instance boots, fails to renew, or finds no lock |
| `ElectionSafety.ClosedMarketElectsNobody` | src/infrastructure/cluster/leader-election.service.ts:39-50 | Over any stretch of a run with the market closed, who leads at its end led at its start or had a SET under way then |
| `ElectionSafety.HeartbeatsFollowTheRole` | src/infrastructure/cluster/leader-election.service.ts:82-97 | Over every such run a leader has exactly one heartbeat interval, the one under its handle, and a worker has none |
| `ElectionSafety.WatchersPileUp` | src/infrastructure/cluster/leader-election.service.ts:102-120 | Each rejected election adds one watcher interval and removes none; a won election removes the one under the handle and no other |
| `ElectionExact.ExpiredUnderLeader` | src/infrastructure/redis/redis.service.ts:122-125 | A reachable run with two leaders when the renewal may arrive after the expiry |
| `ElectionExact.ReleasedUnderLeader` | src/infrastructure/cluster/leader-election.service.ts:28-34 | A reachable run with two leaders when a DEL may arrive after the expiry and removes the lock of the next owner |
| `ElectionRecovery.OwnerlessTimeIsBounded` | src/infrastructure/cluster/leader-election.service.ts:79-113 | In an open market, with a survivor that was elected or rejected, either a live instance owns the lock or the last live owner, the last trace of the dead, the opening and the boot of the survivor are at most 15 s and the delays ago. This is about the owner, which need not lead |
| `ElectionLeadership.DeposedExactlyWhen` | src/infrastructure/cluster/leader-election.service.ts:66-76 | A live leader becomes a worker if and only if the step answers a rejected SET of its own, and it still owns the lock then |
| `ElectionLeadership.OwnersLeadExactlyWhen` | src/infrastructure/cluster/leader-election.service.ts:53-76 | Over every timely run, every live owner of the lock leads or awaits its grant at all times, if and only if no step tells an owner without a grant under way that its SET was rejected |
| `ElectionLeadership.UnhurriedOwnersLead` | src/infrastructure/cluster/leader-election.service.ts:102-113 | That happens in no timely run in which no watcher of an instance runs while a GET or SET of that instance waits for its reply |
| `ElectionVacancy.LeaderlessTimeIsBounded` | src/infrastructure/cluster/leader-election.service.ts:39-113 | In every timely run the time without a leader is bounded: like the time without an owner, plus one reply delay, if no owner is rejected by itself, and by one time to live and one renewal delay more in any case |
| `ElectionVacancy.SuccessionOfLeaders` | src/infrastructure/cluster/leader-election.service.ts:28-113 | Some instance has led again within 60 + 15 s and the delays after a crash, within 15 s and the delays after a clean shutdown of a leader, if no owner is rejected by itself, and within 60 s and one renewal delay more in any case |
| `ElectionRace.OwnerDeposed` | src/infrastructure/cluster/leader-election.service.ts:66-76 | For any delay bounds, a reachable run whose only live instance owns the lock for another 60 s, does not lead and has no heartbeat |
| `ElectionRace.RaceRecurs` | src/infrastructure/cluster/leader-election.service.ts:66-113 | For any delay bounds and any number of minutes, a run in an open market with a live instance in which, but for the first 30 s, nobody leads for any time at all: the owner wins and deposes itself once a minute |
| `ElectionRecovery.Succession` | src/infrastructure/cluster/leader-election.service.ts:28-113 | After a crash some live instance has owned the lock within 60 + 15 s and the delays, after a clean shutdown of a leader within 15 s and the delays, if a survivor took part in an election and nobody else dies meanwhile |
| `ElectionRecovery.WatchKeeps` | src/infrastructure/cluster/leader-election.service.ts:53-76 | An instance that took part in an election leads, has a watcher, or waits for the reply to a SET, after every step |
| `ElectionRecovery.ProspectKeeps` | src/infrastructure/cluster/leader-election.service.ts:99-113 | While the lock is free and the market open, no step loses the timer or command that leads to the next SET in time |
| `LeaderElection.LeaderElectionService.OnSetReply` | src/infrastructure/cluster/leader-election.service.ts:53-76 | The new role with its timers: a winner clears only the watcher under the handle, a loser adds one more watcher whose handle replaces the old one |
| `LeaderElection.LeaderElectionService.OnApplicationShutdown` | src/infrastructure/cluster/leader-election.service.ts:28-34 | The two current timers are cleared and DEL is sent exactly when the role is leader, whoever owns the lock |
| `RedisLock.RedisService.SetLock` | src/infrastructure/redis/redis.service.ts:104-107 | SET NX EX: success exactly when the key is free or expired, then the new owner and expiry; other keys stay |
| `RedisLock.RedisService.RenewLock` | src/infrastructure/redis/redis.service.ts:122-125 | EXPIRE: success exactly when the key exists, whoever owns it, and the owner stays |
| `RedisLock.RedisService.ReleaseLock` | src/infrastructure/redis/redis.service.ts:113-115 | DEL: the key is free afterwards, whoever owned it; other keys stay |
| `JobLock.RunWithLock` | src/infrastructure/redis/lock-manager.service.ts:22-53 | Acquired exactly when the key was free or expired, the key is free after the task returns or throws, untouched when it was not acquired; the result is there only for a task that ran and returned |
| `JobLock.ExclusiveExactlyWhenReleasedInTime` | src/infrastructure/redis/lock-manager.service.ts:22-53 | Over all runs at most one task of a lock name runs, if and only if every run releases before its time to live |
| `JobLock.OneReleaseEach` | src/infrastructure/redis/lock-manager.service.ts:37-52 | Over every run, in time or not, a run that acquired the lock has sent exactly one DEL once its task returned or threw and none before, and a run that did not acquire it none |
| `RateRuns.ServiceRefinesDays` | src/modules/exchange-rate/services/exchange-rate.service.ts:437-540 | For every list of events on warm currencies the cache, the published messages and the raw rows of one currency equal a description by maximal same-day blocks, which no event of another currency touches |
| `RateRuns.RunRefinesDays` | src/modules/exchange-rate/services/exchange-rate.service.ts:443-532 | The same refinement for one currency, with the threshold as a parameter |
| `RateRuns.LastDayOfRun` | src/modules/exchange-rate/services/exchange-rate.service.ts:455-482 | The last day opens at the rate cached at the end of the day before, its rate is its last event outside the band or else its first event, its timestamp is that of its last event |
| `RateRuns.SameDayRefines` | src/modules/exchange-rate/services/exchange-rate.service.ts:484-532 | On the stored day the messages are exactly the events outside the band around the opening rate in order, the raw rows are all of the events |
| `RateRuns.EventsAreConserved` | src/modules/exchange-rate/services/exchange-rate.service.ts:446-539 | Raw rows + rollovers + misses = events, and messages = full updates, over every list of events on any state of the cache |
| `RateRuns.PublishedIsCached` | src/modules/exchange-rate/services/exchange-rate.service.ts:498-523 | A full update adds one message, equal field by field to the hash of its currency right after the write |
| `RateRuns.MissRewritesAll` | src/modules/exchange-rate/services/exchange-rate.service.ts:446-453 | A miss publishes and stores nothing and loses the price; exactly the supported currencies in the reply are rewritten, cold or not |
| `RateRuns.NoMissAfterWarmUp` | src/modules/exchange-rate/services/exchange-rate.service.ts:321-348 | Once the currencies of the events are warm, no event of any list misses and all stay warm |
| `RateRuns.CurrenciesAreIndependent` | src/modules/exchange-rate/services/exchange-rate.service.ts:437-540 | The run of the service seen from one warm currency is the run of that currency on its own events |
| `RateBounds.CacheFollowsFeed` | src/modules/exchange-rate/services/exchange-rate.service.ts:484-532 | After any event of any warm currency the cached rate is within abs(rate - open) + band of the price as rounded by the handler |
| `RateBounds.ChangeBoundsExactlyWhen` | src/modules/exchange-rate/services/exchange-rate.service.ts:484-532 | With the stored change in place of rate - open, and prices of any precision, the bound holds over all runs if and only if the stored change is not less than abs(rate - open) to begin with |
| `RateBounds.ChangeBoundsFeedExactlyWhen` | src/modules/exchange-rate/services/exchange-rate.service.ts:443-532 | For prices as the handler rounds them it holds over all runs if and only if the stored change and the band reach from the rate to the outermost prices of 6 places inside the band |
| `RateBounds.RefillBoundsExactlyWhen` | src/modules/exchange-rate/services/exchange-rate.service.ts:397-413 | After a warm-up or refill these are conditions on the reply of the API: its change against the distance of its own two rates |
| `RateBounds.RoundedChangeIsNoBound` | src/infrastructure/externals/exchange-rates/currencylayer/currencylayer.service.ts:178-183 | With the quote that the parser documents, whose change is rounded to 4 places, a miss and one price at the edge of the band break the bound by the stored change |
| `RateBounds.WritesAreConsistent` | src/modules/exchange-rate/services/exchange-rate.service.ts:462-505 | Any rollover or full update makes change = rate - open, whatever an API stored before |
| `RateInterleaving.InterleavingsConfluent` | src/modules/exchange-rate/services/exchange-rate.service.ts:437-540 | Handlers of one day cut at their awaits: every finished interleaving has the messages and the rows of a sequential run as multisets, and its opening rate |
| `RateInterleaving.AloneIsNext` | src/modules/exchange-rate/services/exchange-rate.service.ts:446-539 | A handler that nobody overlaps leaves the hash, the messages and the rows of the sequential handler |
| `RateInterleaving.OpeningNeverMoves` | src/modules/exchange-rate/services/exchange-rate-redis.service.ts:44-52 | At every point of every such interleaving the opening rate is the one before, and change = rate - open if that held before |
| `RateConfluence.ConfluentExactlyWhen` | src/modules/exchange-rate/services/exchange-rate.service.ts:437-540 | For every list of events: all interleavings have the messages and rows of the sequential run if and only if all events are of the stored day, or none is and no two are of the same day |
| `RateConfluence.NewDayRaces` | src/modules/exchange-rate/services/exchange-rate.service.ts:462-480 | Two or more events of one day are confluent if and only if it is the stored day, which is the guard of the rollover |
| `RateOutcomes.SameDayOutcome` | src/modules/exchange-rate/services/exchange-rate.service.ts:482-539 | On the stored day: one raw row; a message and a full update, each field stated, exactly when the price is off the opening rate by more than the absolute threshold and by more than the percentage of it; otherwise only the timestamp moves |
| `RateOutcomes.RolloverOutcome` | src/modules/exchange-rate/services/exchange-rate.service.ts:461-480 | On another day: the last rate becomes the opening one, change = price - last rate, percentage 0, no message and no row |
| `RateOutcomes.MissOutcome` | src/modules/exchange-rate/services/exchange-rate.service.ts:453-459 | Without rate, timestamp or opening rate: exactly the supported currencies in the reply are refilled, field by field, with the time of the clock; no message and no row |
| `RateOutcomes.NextAfterRefill` | src/modules/exchange-rate/services/exchange-rate.service.ts:397-410 | After a refill the next event of that day is no rollover, and is published against the start rate of the API exactly beyond both thresholds |
| `RateOutcomes.RefillOutcome` | src/modules/exchange-rate/services/exchange-rate.service.ts:396-413 | A refill writes rate, opening rate, change, percentage and time of exactly the listed currencies in the reply |
| `RateOutcomes.ToFixed6IsNearest` | src/modules/exchange-rate/services/exchange-rate.service.ts:443 | The price kept is the nearest multiple of a millionth, of two the one farther from zero |
| `RateCache.ExchangeRateService.HandleLatestRateUpdate` | src/modules/exchange-rate/services/exchange-rate.service.ts:437-540 | The handler as written does the miss, rollover, full or timestamp-only update of its specification, whose outcomes the rows above state, and fails only on a miss whose API call fails |
| `RateCache.ExchangeRateService.FetchAllMissingCurrencies` | src/modules/exchange-rate/services/exchange-rate.service.ts:377-422 | Each listed currency in the reply has the end rate, start rate, change and percentage of the reply and the time of the clock; every other hash stays; nothing is written when the API fails |
| `RateCache.FilledExactly` | src/modules/exchange-rate/services/exchange-rate.service.ts:391-413 | What the refill leaves for every currency: the reply where it is listed and known, the old hash otherwise |
| `RateCache.MissingExactly` | src/modules/exchange-rate/services/exchange-rate.service.ts:353-372 | The missing currencies are exactly those of the list without a rate, timestamp or opening rate |
| `RateCache.ExchangeRateService.InitializeAllCurrencyData` | src/modules/exchange-rate/services/exchange-rate.service.ts:321-348 | The warm-up keeps every warm hash, leaves warm each listed currency that the reply knows or that was warm, and gives a cold one the values of the reply at the time of the clock |
| `RateReader.ReaderFollowsFeed` | src/modules/exchange-rate/services/exchange-rate.service.ts:79-106 | After any event of any warm currency with a positive cached rate r the shown rate is within (abs(r - open) + band + 0.0000005) / (r * feed) + 0.00005 of 1 / feed, for the price that the feed gave, before any rounding |
| `RateReader.ShownRateIsClose` | src/modules/exchange-rate/services/exchange-rate.service.ts:85-93 | When the cached rate r is the feed value rounded to 6 places, the shown rate is within 0.0000005 / (r * feed) + 0.00005 of 1 / feed |
| `RateReader.ShownChangeIsInverted` | src/modules/exchange-rate/services/exchange-rate.service.ts:219-232 | With the market open the shown change is (open - r) / (r * open), so negative exactly when the rate is above the opening one; it has the sign opposite to the stored change if and only if the stored change has the sign of r - open |
| `RateReader.ReadCached` | src/modules/exchange-rate/services/exchange-rate.service.ts:79-106 | One entry for each requested code and no other, from the hash of that code |
| `RateReader.ShownFields` | src/modules/exchange-rate/services/exchange-rate.service.ts:92-98 | Percentage and change are zero while the market is closed, the percentage is the stored one while it is open, the time is that of the hash, and a missing or zero rate gives no finite number |
| `FeedRuns.SingleLiveFeed` | src/infrastructure/externals/exchange-rates/coin-api/coin-api-ws.service.ts:37-177 | Over every run: at most one socket is listened to, at most one reconnect is pending and then the current socket is closed, at most one health interval runs, and primary and secondary are never both able to emit |
| `FeedRuns.SilentUntilConnect` | src/infrastructure/externals/exchange-rates/coin-api/coin-api-ws.service.ts:128-131 | After a disconnect, or an error event of the current socket, no socket is listened to and no reconnect is pending until a connect |
| `FeedRuns.RestUntilConnect` | src/infrastructure/externals/exchange-rates/websocket-manager.service.ts:33-41 | After a disconnect nobody is active and no health check runs until a connect, whatever else happens |
| `FeedRuns.HealthyMeansHeard` | src/infrastructure/externals/exchange-rates/coin-api/coin-api-ws.service.ts:134-150 | A primary that passes its health check has an open current socket that it listens to, and the last heartbeat came over that very socket |
| `FeedRuns.FailoverInTime` | src/infrastructure/externals/exchange-rates/websocket-manager.service.ts:47-86 | The primary is active no later than 70 s after the latest heartbeat stamp and 10 s after the last connect, reconnects or not; from then on the secondary is active unless somebody disconnected the manager |
| `FeedRuns.HeardIsKept` | src/infrastructure/externals/exchange-rates/coin-api/coin-api-ws.service.ts:134-150 | The other side: while the current socket is open and the stamp at most 60 s old, any health checks leave the primary active and untouched |
| `FeedRuns.HeartbeatIsRemembered` | src/infrastructure/externals/exchange-rates/coin-api/coin-api-ws.service.ts:70-75 | A heartbeat counts from the time it names, from now if it names none, and restores the retries |
| `FeedRuns.FailoverIsOneWay` | src/infrastructure/externals/exchange-rates/websocket-manager.service.ts:33-86 | The active service only descends from primary to secondary to none, and to none only through a disconnect |
| `FeedRuns.RetryBudget` | src/infrastructure/externals/exchange-rates/coin-api/coin-api-ws.service.ts:93-126 | In any stretch of any run without a heartbeat at most 3 reconnects are scheduled, manual connects and cleanups included |
| `FeedRuns.ReconnectsExactlyWithinBudget` | src/infrastructure/externals/exchange-rates/coin-api/coin-api-ws.service.ts:70-126 | After a heartbeat and until the next one, the close of the current socket leaves exactly one pending reconnect, due after 3 ms, if and only if the code is not 1000 and fewer than 3 were scheduled since that heartbeat; otherwise the primary is silent |
| `FeedRuns.StraysExactlyWhen` | src/infrastructure/externals/exchange-rates/coin-api/coin-api-ws.service.ts:157-177 | After every run, a socket is open or connecting without being listened to if and only if a connect, disconnect or health check of the manager came while the primary was active and that socket, its current one, still connecting, and no close or error has ended it since |
| `FeedRuns.ServiceNeverClosesStrays` | src/infrastructure/externals/exchange-rates/coin-api/coin-api-ws.service.ts:157-177 | However a run goes on, such a socket stays one until a close or error of its own ends it, and is open as soon as it opens: no cleanup reaches it |
| `FeedRuns.StrayOpens` | src/infrastructure/externals/exchange-rates/coin-api/coin-api-ws.service.ts:157-177 | A run in which such a socket is open: cleanup detaches a connecting socket and does not close it |
| `FeedRuns.ReconnectsAreFinite` | src/infrastructure/externals/exchange-rates/coin-api/coin-api-ws.service.ts:70-75 | Over a whole run reconnects <= 3 * (heartbeats + 1) |
| `FeedRuns.MockSilentExactlyWhenConnectedOnce` | src/infrastructure/externals/exchange-rates/coin-api/mock/coin-api-socket-mock.service.ts:29-55 | After the manager was disconnected the mock is silent if and only if it was connected at most once; the subscriptions left behind are counted exactly |
| `FeedRuns.LeakedMock` | src/infrastructure/externals/exchange-rates/coin-api/mock/coin-api-socket-mock.service.ts:29-55 | A run in which the mock still emits after the manager was disconnected |
| `FeedServices.CoinApiWebSocketService.OnClose` | src/infrastructure/externals/exchange-rates/coin-api/coin-api-ws.service.ts:93-126 | A normal closure or an exhausted budget cleans up, any other close schedules one reconnect |
| `FeedServices.CoinApiWebSocketService.DoCleanup` | src/infrastructure/externals/exchange-rates/coin-api/coin-api-ws.service.ts:157-177 | The pending reconnect, the listeners and the heartbeat are given up; only an open socket is closed |
| `FeedServices.CoinApiWebSocketService.IsHealthy` | src/infrastructure/externals/exchange-rates/coin-api/coin-api-ws.service.ts:134-150 | Healthy exactly when the current socket is open and a heartbeat is at most 60 s old |
| `FeedServices.WebSocketManagerService.DoFailover` | src/infrastructure/externals/exchange-rates/websocket-manager.service.ts:63-86 | Primary gives way to secondary, secondary to none |
| `FeedServices.WebSocketManagerService.OnHealthInterval` | src/infrastructure/externals/exchange-rates/websocket-manager.service.ts:47-61 | A health check fails over exactly when the active service is not healthy |
| `WatchlistPaging.PagingExactlyWhenDistinct` | src/modules/watchlist/watchlist.repository.ts:74-108 | For non-negative orders: following the cursor ends and gives every row once in descending order at every page size, if and only if no two orders are equal |
| `WatchlistPaging.EveryListCanBePaged` | src/modules/watchlist/watchlist.repository.ts:74-108 | After every run of creations, deletions and reorders to free orders, the pages of every user are the one listing there is, each row once, at every page size |
| `WatchlistPaging.PageAt` | src/modules/watchlist/dto/select-watchlist.dto.ts:49-60 | With distinct orders the truthiness test of hasNextPage is right on every page, and the cursor is never 0 and strictly falls |
| `WatchlistPaging.TiesBreakPaging` | src/modules/watchlist/watchlist.repository.ts:82-95 | Two rows of one order across a page break are never both delivered once, for any such listing |
| `WatchlistRuns.ListsStayBounded` | src/modules/watchlist/watchlist.service.ts:16-112 | Over every run of creations, deletions and any reorders at all: pairs unique, orders non-negative and lists at most 10 long, for every user |
| `WatchlistRuns.OrdersStayDistinctExactlyWhen` | src/modules/watchlist/watchlist.service.ts:16-112 | Over every such run the orders of every user are distinct all the time, if and only if every reorder that commits asks for an order no other row of the user holds, or for the number of the user |
| `WatchlistRuns.ListsStayOk` | src/modules/watchlist/watchlist.service.ts:16-112 | After every run whose reorders are like that, every list has all of these properties |
| `WatchlistRuns.CreateAppends` | src/modules/watchlist/watchlist.service.ts:30-46 | A new row stands exactly one above the last row of its user, at 0 in an empty list, and changes no other row |
| `WatchlistRuns.DeleteRemoves` | src/modules/watchlist/watchlist.service.ts:65-76 | A deletion succeeds exactly for a row of the user, takes that row and no other, and the list is one shorter |
| `WatchlistRuns.DeletedPairReturns` | src/modules/watchlist/watchlist.service.ts:65-76 | A deleted pair can be created again |
| `WatchlistRuns.ReorderKeepsDistinctExactlyWhen` | src/modules/watchlist/watchlist.service.ts:78-112 | A committed reorder keeps the orders distinct if and only if no other row of the user holds the new order, or the new order equals the number of the user |
| `WatchlistRuns.ReorderCommitsExactlyWhen` | src/modules/watchlist/watchlist.service.ts:86-111 | It commits exactly when the pair exists and the exchanged lookup finds no row of another user; it rolls back only because of such a row |
| `WatchlistRuns.ReorderMoves` | src/modules/watchlist/watchlist.service.ts:92-108 | What a committed reorder does to each row of the table, and that it moves no other |
| `WatchlistRuns.ReorderTransposes` | src/modules/watchlist/watchlist.service.ts:92-108 | When the new order equals the number of the user, the two rows exchange their orders |
| `Watchlist.WatchlistService.CreateInterestCurrency` | src/modules/watchlist/watchlist.service.ts:16-47 | Refused for a registered pair exactly when the user has it, else for ten rows, else the row of the specification, and the table stays on refusal |
| `WatchlistRaces.OverlapKeepsDistinctExactlyWhen` | src/modules/watchlist/watchlist.service.ts:16-47 | However the four queries of any number of creations overlap, the orders of a user are distinct in the end if and only if no row of the user is inserted after the last order changed since that creation read it |
| `WatchlistRaces.OverlapBoundsRows` | src/modules/watchlist/watchlist.service.ts:32-46 | With at most k creations of a user at once between count and insert, the user has at most 9 + k rows over every overlap, so ten if there is never more than one |
| `WatchlistRaces.TwoOverlap` | src/modules/watchlist/watchlist.service.ts:32-46 | Two creations that overlap on any list that is not full tie and add two rows: from nine rows they make eleven |
| `WatchlistRaces.PairsStayUnique` | prisma/schema.prisma:113-126 | Under every overlap pairs stay unique, by the constraint of the table, and orders non-negative |
| `WatchlistRaces.FourQueries` | src/modules/watchlist/watchlist.service.ts:16-47 | Without another query in between, the four queries are the creation of the sequential model |
| `Watchlist.WatchlistService.DeleteInterestCurrency` | src/modules/watchlist/watchlist.service.ts:65-76 | Succeeds exactly when the row is there with that user, and then the row is gone and every other as it was; on failure all rows stay |
| `Watchlist.WatchlistService.UpdateInterestPairOrder` | src/modules/watchlist/watchlist.service.ts:78-112 | The transaction of the specification for some answer of the unordered lookup, and the old table on failure |
| `Watchlist.WatchListRepository.FindInterestPairsWithCursor` | src/modules/watchlist/watchlist.repository.ts:74-108 | A page of some descending listing of exactly the rows of the user; the cursor filters only where it is not 0 |
| `Watchlist.WatchListRepository.FindLastOrder` | src/modules/watchlist/watchlist.repository.ts:28-42 | The greatest order of the user, or none for a user without rows |
| `DailyRates.HistoryService.GetHistoricalRates` | src/modules/exchange-rate/services/exchange-rate.service.ts:242-286 | For any bounds: the API is asked exactly when a day from the start on is missing or was not looked for, the call succeeds exactly when the reply covers those days, and then each of them is in the table. The answer has one row per day read, ascending, if and only if the end is not earlier in its day than the start, or the last day was there before. No existing row changes, and only missing days are added, with the inverse of the reply |
| `DailyRates.HistoryService.AskTwice` | src/modules/exchange-rate/services/exchange-rate.service.ts:242-286 | After a call that succeeded, an identical call asks the API nothing, unless the start is within a day and the database compares it by its instant; the rows are the same |
| `DailyRates.DenseRange` | src/modules/exchange-rate/repositories/exchange-rate-daily.repository.ts:22-40 | A range without gaps is found as one row per date, ascending |
| `DailyRates.FoundExactly` | src/modules/exchange-rate/repositories/exchange-rate-daily.repository.ts:22-40 | A date is found if and only if it is in range and in the table |
| `DailyRates.FoundInOrder` | src/modules/exchange-rate/repositories/exchange-rate-daily.repository.ts:22-40 | Whatever is found is a row of the pair in range with its rate, in strictly ascending order |
| `DailyRates.SavedExactly` | src/modules/exchange-rate/repositories/exchange-rate-daily.repository.ts:13-20 | Saving with skipped duplicates keeps every old row, adds exactly the given keys, each with a rate given for it |
| `DailyRates.AggregationIsIdempotent` | src/modules/exchange-rate/services/exchange-rate.service.ts:295-315 | Saving the rows of an aggregation twice leaves the table as saving them once |
| `DailyRates.HistoryService.CalculateDailyRates` | src/modules/exchange-rate/services/exchange-rate.service.ts:295-315 | Exactly the currencies of the reply have a row under the start date afterwards, besides the old rows, which keep their rates; a new row has the rate of the reply |
| `DailyRates.SecondAggregationIsIdle` | src/modules/exchange-rate/services/exchange-rate.service.ts:295-315 | A second aggregation of the same day changes nothing if and only if each currency of its reply was in the first reply or in the table, whatever its rates |
| `DailyRates.GetDatesBetween` | src/common/utils/date-util/date-util.service.ts:39-50 | Terminates with floor((end - start) / day) + 1 midnights of consecutive days, none for an inverted range |
| `DailyRates.GetLastMarketDay` | src/common/utils/date-util/date-util.service.ts:88-105 | The latest day before today on which the market is open: three days back on a Monday, two on a Sunday, else one, by dates modulo 7 |
| `DailyRates.MarketIsClosedAtWeekends` | src/common/utils/date-util/date-util.service.ts:74-79 | Date 0 is a Thursday and the week has seven days, so the market is closed exactly on the dates that are 2 or 3 modulo 7 |
| `SseChannels.ChannelsAreCounted` | src/modules/sse/services/latest-rate-sse.service.ts:28-90 | Over every run in which each observable is subscribed at most once and finalised once: a channel exists if and only if somebody holds it, its count is their number, all hold the subject in the map, and an event reaches exactly the subscribers of its channel |
| `SseChannels.CompletionIsUnobserved` | src/modules/sse/services/latest-rate-sse.service.ts:72-85 | A clean-up that removes a channel completes a subject that nobody holds any more |
| `SseChannels.LatestRateSseService.CleanUpChannel` | src/modules/sse/services/latest-rate-sse.service.ts:64-90 | The last subscriber removes subject and count and completes the subject, any other lowers the count by one |
| `SseChannels.LatestRateSseService.GetLastRateObservable` | src/modules/sse/services/latest-rate-sse.service.ts:28-39 | The subject in the map, new exactly when there was none, with the count raised by one |
| `SseChannels.FinalizeKeeps` | src/modules/sse/sse.controller.ts:21-25 | The finaliser of one subscriber keeps the counting invariant for all channels |
| `QuoteKeys.QuotesRoundTrip` | src/infrastructure/externals/exchange-rates/currencylayer/currencylayer.service.ts:163-173 | For every source, every map of rates and every order of the keys, parsing the quotes built from the rates gives the rates back |
| `QuoteKeys.SeriesRoundTrips` | src/infrastructure/externals/exchange-rates/currencylayer/currencylayer.service.ts:247-262 | The same for the nested quotes, date by date |
| `QuoteKeys.FluctuationFields` | src/infrastructure/externals/exchange-rates/currencylayer/currencylayer.service.ts:197-215 | For every source, quotes and order of the keys each parsed quote has the start rate, end rate and percentage given, and the change given, or endRate - startRate where that is 0 |
| `QuoteKeys.RemovesFirstOnly` | src/infrastructure/externals/exchange-rates/currencylayer/currencylayer.service.ts:168-170 | Only the first occurrence of the source goes, what stands before and after it stays, and a key without it stays as it is |
| `QuoteKeys.KeyParses` | src/infrastructure/externals/exchange-rates/currencylayer/currencylayer.service.ts:168-170 | The first occurrence of the source in a built key is at its front, whatever the target contains |
| `QuoteKeys.KeysCollideExactlyWhenEqual` | src/infrastructure/externals/exchange-rates/currencylayer/currencylayer.service.ts:168-170 | Two keys of one source are parsed to the same target if and only if they are the same key |
| `QuoteKeys.BuildQuotes` | src/infrastructure/externals/exchange-rates/currencylayer/constant/currencylayer.constant.ts:33-37 | The loop over the targets builds exactly the quotes of the rates, where a repeated target keeps its last value |
| `QuoteKeys.BuildSeries` | src/infrastructure/externals/exchange-rates/currencylayer/constant/currencylayer.constant.ts:172-180 | The loop over the days builds such quotes for exactly the given dates |

## Left out

- HTTP clients, the WebSocket and Redis wire protocols, Prisma and the wiring of modules: they are atomic steps, parameters or unique-keyed tables.
- IEEE floating point, the string encoding of Redis values and the DECIMAL(20,8) column: numbers are exact reals, rounding is a function.
- Time zones: local time is UTC.
- ElectionSafety.MutualExclusion: states the role and the lock only. Stepping down does not disconnect the feed, so nothing is said about collecting sockets across the cluster.
- ElectionCluster: an instance is gone from the model at its shutdown call, so replies and leaked watchers handled while the process exits are not modelled; neither are failing commands or lost replies of live instances, nor clocks that run at different speeds. A key is gone at the very instant of its expiry.
- ElectionRecovery.Succession: a clean shutdown is covered when no SET of the dying leader is still on its way; with one on its way `OwnerlessTimeIsBounded` gives the bound of a crash.
- RateBounds.CacheFollowsFeed: is about abs(rate - open) + band. The band alone is no bound, because a price that moves back into it is not written.
- RateConfluence.ConfluentExactlyWhen: is about messages and rows; which rate stays cached depends on the order of the writes within a day already. The write on a rollover is one step although the code does not await it, and the commands of one handler arrive in order. Overlapping misses are not modelled.
- RateReader: the cache-miss branches of `getCurrencyExchangeRates` (external API, weekend snapshot) and the health-check key. The weekend refill in particular is not claimed to complete the snapshot: rows are dated with the start date, and the retry reads the last market day.
- FeedRuns.FailoverInTime: takes heartbeat stamps as the feed sends them; a stamp from the future moves the deadline. Negative stamps are not modelled, nor are the rate events themselves.
- FeedRuns.StraysExactlyWhen: the WebSocket library is not part of this model. An error is taken to put the socket into its closing state, as that library does before it emits one; that an error of a detached socket has no handler is not modelled.
- WatchlistRuns.ListsStayOk: requests run one after the other, and orders are integers. Overlaps are modelled for creations only, not for deletions and reorders beside them.
- WatchlistRaces.OverlapKeepsDistinctExactlyWhen: the count and the unique constraint are read and checked as of one instant each; transaction isolation inside a single query is the database's.
- DailyRates.HistoryService.GetHistoricalRates: how the database compares a bound that has a time of day with a DATE column is a parameter, by date or by instant. API rates are positive.
- DailyRates.HistoryService.CalculateDailyRates: the rates of the API are a parameter; a failing API or database is not modelled.
- SseChannels.ChannelsAreCounted: an observable is subscribed once at most. An observable subscribed twice, or never finalised after an abort before its subscription, is not modelled.
- QuoteKeys: the HTTP methods around the parsers and the random rates.
- `MarketStatusScheduler`, authentication, push messages, the AI report, notifications, device tokens, logging, validation and controllers: I/O, wrappers around libraries, or easy members.

# pr0xteus: verified models

Dafny models of the parts of pr0xteus where ordering, concurrency and
bookkeeping decide whether it is correct: the service supervisor, the tunnel
pool with its leases and reaper, the per-cell traffic recorder, the client's
retry staircase, and the `.env` editor that has to agree with the `.env`
reader. `dafny verify dfyconfig.toml` checks everything.

| file | what it models |
|---|---|
| `ServiceOrder.dfy` | the dependency graph with its duplicate edges and the layered topological sort |
| `Supervisor.dfy` | start, ready, retry, fail and stop, as a machine over goroutine steps |
| `SupervisorReports.dfy` | what a service's returns lead to over whole schedules, and where Run can block |
| `SupervisorEnds.dfy` | why a cancelled or failed Run always returns |
| `Tunnels.dfy` | one pool's hot slot and failure cache, the state behind one mutex |
| `FailureCache.dfy` | the lazily cleaned failure cache against the failure history |
| `Leases.dfy` | the pruned lease registry against the issue history |
| `Gateway.dfy` | one proxied connection over a lease, and its once-only release |
| `PoolMachine.dfy` | acquirers, leases, reapers and destroy calls over all pools, in any interleaving |
| `PoolRoutes.dfy` | the hot path, the one hop to the fallback, and what marks take out of service |
| `PoolKills.dfy` | reapers, destroy, close and the orphan pass against cells in use, and what becomes of a killed cell |
| `Orphans.dfy` | the orphan pass and its grace period |
| `Recorder.dfy`, `Traffic.dfy` | the bounded traffic recorder, and whole runs of counted connections |
| `Retry.dfy` | the retry loop, the public-first dispatch and the backoff |
| `DotEnv.dfy` | the `.env` upsert and the line reader |
| `Wrappers.dfy`, `Collections.dfy` | the option type, and sizes of sets and sequences |

Objects that the program updates under a lock are classes with the same fields,
and loops stay loops. Each method is proved against a function on values
(`Taken`, `Released`, `Prune`, `BucketKey`, `Rewrite` and so on), and the
machines and histories are built from those same functions, so the whole-run
theorems are about what the methods do. The two concurrent protocols are step
functions `Next` over a state; a theorem about reachable states ranges over
every schedule of enabled events. One mutex-protected region is one step. Spawn
and Kill have a beginning and an end, with an arbitrary outcome; a spawn that
succeeds returns a container ID never seen before. Map iteration order, random
choice of a configuration, HTTP outcomes and the clock are arbitrary. The pool
machine also carries history (who was born, what is outstanding, what was
published, how many acquisitions there were) that no step reads to decide
anything about the program itself, except that a caller releases only what it
holds and leases only what it acquired.

## Where the code and its promises differ

In each case the model follows the code, and the condition under which the
promise does hold is proved beside it.

- The in-flight comments (`internal/pkg/services/pr0xteus/pool.go:375`,
  `internal/pkg/services/pr0xteus/pool.go:417`) say a tunnel in use is not
  killed. Only the idle loop looks at the count; the health loop, DestroyCell,
  Close and the orphan pass do not.
  - The idle check reads a snapshot, so an acquisition after it is not seen:
    `PoolKills.IdleReapRace`, from every reachable state with an idle hot tunnel,
    and `PoolKills.IdleHotReachable` reaches one in every pool.
  - Release is keyed by pool, so giving back an acquisition of a former tunnel
    lowers the count of the one that replaced it: `PoolKills.LostReleaseRace`.
  - The health loop marks and kills whatever is in flight:
    `PoolKills.HealthReapIgnoresUse`, from every reachable state with a hot tunnel,
    and `PoolKills.HealthReapHitsUse` in every pool.
  - The orphan pass keeps only what sits in slots, so it kills a held cell that
    lost its slot: `PoolKills.OrphanKillsHeld`; `PoolKills.OrphanHeldExact` says
    exactly when, and `PoolKills.OrphanGap` what can change between keep set and
    Kill.
  - When a tunnel is in use: after any run exactly when its count or what the count
    has lost is positive (`PoolMachine.InUseExact`, for reapers about to mark
    `PoolKills.MarkExact`). At any Kill, any time after its snapshot and whatever
    the slot holds by then: exactly when fewer acquisitions of the container were
    released since the snapshot than were outstanding at it or made since
    (`PoolKills.KillExact`). So a Kill of the idle loop hits nobody if no acquisition
    of the pool had outlived its tunnel at the snapshot and none was made since
    (`PoolKills.IdleKillSafe`).
- DestroyCell is to keep a half-dead cell from being handed out
  (`internal/pkg/services/pr0xteus/cells.go:92-94`). It kills before it clears the
  slot and marks nothing, so a killed cell is handed out in between
  (`PoolKills.DestroyedStillServed`), and one killed before its publication is
  published hot afterwards (`PoolKills.KilledThenPublished`). A container, killed or
  not, can still be handed out exactly while it is hot in a slot or waits to be
  published (`PoolKills.HandedOutExactly`); the reapers mark first, and what they
  kill is never handed out again (`PoolKills.ReaperKillsGone`).
- The slot is cleared without a look at what it holds
  (`internal/pkg/services/pr0xteus/reaper.go:358`), so the clear that ends a reap can
  remove a hot successor in use (`PoolKills.ClearRemovesSuccessor`): exactly when
  something was published on the pool since the killer's snapshot and is still there
  (`PoolKills.ClearExact`).
- `Release` is described as idempotent
  (`internal/pkg/services/pr0xteus/pool.go:756`). Two releases in a row act as one
  exactly when at most one acquisition was counted (`Gateway.ReleaseTwice`); with
  an acquisition in between the second always counts (`Gateway.ReleaseAgain`).
  Callers get the once-only behaviour from `releaseConn`.
- A tunnel reported by `MarkFailed` is to be picked up by the reaper's next tick
  (`internal/pkg/services/pr0xteus/pool.go:913-914`). The health loop skips tunnels
  that are not hot; only the idle loop ever reaps it, and exactly when its count is
  zero (`PoolRoutes.FailedLeftToIdle`).
- `Stop` may spend its once-only body before startup takes its lock. Services
  launched after that never get a `Stop` call, and if Run had not stored its
  cancel function yet that `Stop` does not even cancel them
  (`Supervisor.EarlyStopMisses`, exact condition in `Supervisor.StopExact`).
- For every negative `MaxRetries` there is a run in which the service makes no
  attempt, is reported all the same and stops the application, and Run returns
  nil (`Supervisor.NegativeBudgetReported`). Run returns a real error on a failure
  exactly when `MaxRetries` is not negative (`Supervisor.DeliveredAttempts`).
- `backoffFor` is described as capped at `MaxBackoff`
  (`pkg/client/retry.go:96-98`). The cap comes before the jitter, so all waits
  before an attempt stay within it exactly when the capped base times one plus the
  jitter does (`Retry.JitterExact`); `Retry.JitterExceedsMax` is an input that does
  not. The default policy keeps the bound on all its attempts
  (`Retry.DefaultWithinMax`).
- The failure cache keeps the last write, not the latest time, and every time is
  read before the pool's lock is taken (for instance
  `internal/pkg/services/pr0xteus/pool.go:928`, and pickConf's own at
  `internal/pkg/services/pr0xteus/pool.go:659-661`). Two failures written in the
  other order shorten a ban (`FailureCache.LateWriteForgets`), and a cleaning with a
  later time drops a failure that a pick with an earlier one should still see
  (`FailureCache.LatePickForgets`). What the cache knows for clock readings in any
  order is `FailureCache.CacheExactly`, and when that agrees with the history for
  every TTL is `FailureCache.TruthfulExactly`.
- Containers that were created but never started are described as reaped on
  sight (`internal/pkg/services/pr0xteus/spawner.go:854-857`). The keep set and,
  on a ticker pass, the minimum age come first for them too
  (`Orphans.KilledExactly`, a young one in `Orphans.CreatedSpared`).
- A value written to `.env` reads back unchanged exactly when it has no trailing
  space and no quote at either end (`DotEnv.UpsertReadsBack`,
  `DotEnv.QuotedValueChanges`).

## Model

| member | source | states |
|---|---|---|
| ServiceOrder.BuildDepGraph | internal/pkg/service-manager/service_manager.go:756-796 | for every visiting order, each in-degree is the number of listed dependencies that are in process, duplicates counted, and the dependents map holds the same edges transposed with the same multiplicity |
| ServiceOrder.AddEdges | internal/pkg/service-manager/service_manager.go:775-792 | one service's declared dependencies: names not in process are skipped, its own degree and the transposed edges grow together, nothing else changes |
| ServiceOrder.ZeroDegree | internal/pkg/service-manager/service_manager.go:807-815 | the first queue holds every service of degree zero, each once |
| ServiceOrder.DrainGroup | internal/pkg/service-manager/service_manager.go:826-838 | after one group every degree counts the dependencies still unplaced, and the next queue is exactly the services whose degree fell to zero, each once |
| ServiceOrder.PendingPlace | internal/pkg/service-manager/service_manager.go:828-834 | placing a service lowers a dependent's count by as often as it is listed |
| ServiceOrder.StuckIsCyclic | internal/pkg/service-manager/service_manager.go:843-845 | a set in which every service depends on another one of the set contains a cycle |
| ServiceOrder.LeftoverCyclic | internal/pkg/service-manager/service_manager.go:843-845 | services left over when the queue is empty mean the graph is cyclic |
| ServiceOrder.LevelIsHeight | internal/pkg/service-manager/service_manager.go:817-841 | the round in which a service is placed is the length of its longest dependency chain |
| ServiceOrder.LevelsAcyclic | internal/pkg/service-manager/service_manager.go:843-847 | if every service was placed the graph has no cycle |
| ServiceOrder.TopoSort | internal/pkg/service-manager/service_manager.go:798-848 | the cyclic-dependency error exactly when the in-process graph has a cycle; otherwise every service once, in the group numbered by its longest chain, and no empty group |
| ServiceOrder.ResolveOrder | internal/pkg/service-manager/service_manager.go:747-754 | the same, from the service map alone, duplicates and absent names included |
| ServiceOrder.DependencyEarlier | internal/pkg/service-manager/service_manager.go:769-841 | every dependency sits in a strictly earlier group |
| ServiceOrder.LayeringUnique | internal/pkg/service-manager/service_manager.go:809-838 | any two orders agree on the group of every service, so map iteration order does not matter |
| ServiceOrder.LayeringsAgree | internal/pkg/service-manager/service_manager.go:817-841 | any two orders have the same number of groups, none empty, and the same services in each |
| Supervisor.InvKept | internal/pkg/service-manager/service_manager.go:336-739 | every step of every goroutine keeps the launch frontier, the token accounting, the ready gate, the error-channel and the stop-log invariants |
| Supervisor.ReachableInv | internal/pkg/service-manager/service_manager.go:336-739 | those invariants hold in every reachable state of every valid configuration |
| Supervisor.LaunchInOrder | internal/pkg/service-manager/service_manager.go:416-509 | when a service is launched each in-process dependency runs its own code and, unless the context is cancelled, each that notifies readiness is ready or has exited |
| Supervisor.FailureStopsStartup | internal/pkg/service-manager/service_manager.go:425-433 | along any continuation after the failure signal no later group is started |
| Supervisor.FailureReported | internal/pkg/service-manager/service_manager.go:355-412 | no send after close, a set failure signal has its error queued or taken so the final select can proceed, and the delivered error is the one of the last attempt of a non-allowed service that used them all |
| Supervisor.ProcSignals | internal/pkg/service-manager/service_manager.go:511-638 | a step of a failing service keeps its attempt counter within budget and offers its error before it raises the signal |
| Supervisor.DeliveredAttempts | internal/pkg/service-manager/service_manager.go:384-562 | when Run has returned on a failure, it was after MaxRetries + 1 attempts exactly when MaxRetries is at least -1, and the error is nil exactly when MaxRetries is negative, else that of the last attempt |
| Supervisor.NegativeBudgetReported | internal/pkg/service-manager/service_manager.go:526-564 | for every negative MaxRetries a complete run that makes no attempt, reports the service, and returns nil from Run |
| SupervisorReports.ExitedExactly | internal/pkg/service-manager/service_manager.go:511-564 | a service that exited uncancelled either returned well once after at most MaxRetries failures or failed exactly MaxRetries + 1 times, and then, unless allowed, the failure signal is up and an error is queued or taken |
| SupervisorReports.FailedThenRetried | internal/pkg/service-manager/service_manager.go:526-557 | while a service has failed at most MaxRetries times, never returned well and was not cancelled, it is not done, and it runs the next attempt |
| SupervisorReports.UsedBudgetReported | internal/pkg/service-manager/service_manager.go:526-564 | for every MaxRetries that is not negative a complete run that fails MaxRetries + 1 times and returns the error of the last attempt |
| SupervisorReports.CancelledNotReported | internal/pkg/service-manager/service_manager.go:538-545 | whatever a cancelled service returns, it is neither retried nor reported, along any run |
| SupervisorReports.FirstErrorDelivered | internal/pkg/service-manager/service_manager.go:617-637 | along any run the error queued first stays queued until Run takes it, and is what Run returns, whatever fails later |
| SupervisorReports.EveryServiceLaunched | internal/pkg/service-manager/service_manager.go:425-472 | once Run is past startup every service was launched, unless a failure was signalled |
| SupervisorReports.WaitBlocksExactly | internal/pkg/service-manager/service_manager.go:485-508 | the ready wait blocks exactly at a service that notifies, is neither ready nor gone, with nothing failed and nothing cancelled; its ready signal ends the wait |
| SupervisorReports.SelectExactly | internal/pkg/service-manager/service_manager.go:379-386 | the final select takes the queued error, or ends clean on cancellation, and blocks exactly when there is neither |
| SupervisorReports.StopNeedsCall | internal/pkg/service-manager/service_manager.go:662-681 | nothing is stopped unless Stop was called |
| Supervisor.RetriesEnd | internal/pkg/service-manager/service_manager.go:526-557 | in every reachable state each step of a service goroutine uses up one of a number of steps fixed by its retry budget, so retrying ends |
| Supervisor.ReporterFinishes | internal/pkg/service-manager/service_manager.go:601-638 | a failing service exits by its own steps whatever the error channel and all other goroutines are doing |
| Supervisor.DrainCompletes | internal/pkg/service-manager/service_manager.go:355-387 | whatever the services are doing when Run waits for them, any number failing at once, their own steps alone bring Run to return its result |
| Supervisor.ServiceFinishes | internal/pkg/service-manager/service_manager.go:454-565 | any service goroutine exits by its own steps once its service returns, whatever the others do |
| Supervisor.DrainInevitable | internal/pkg/service-manager/service_manager.go:356-358 | in every schedule: once no service goroutine can take a step, the final wait is over and Run can return |
| SupervisorEnds.RunBounded | internal/pkg/service-manager/service_manager.go:336-739 | from every reachable state, along any run, Run, its services and Stop take at most a number of steps fixed by that state |
| SupervisorEnds.EndingMoves | internal/pkg/service-manager/service_manager.go:336-739 | in every reachable state of a Run that was cancelled, has failed or is on its way out and has not returned, a step of Run, of a service or of Stop is enabled, so with the bound every schedule ends with Run returned |
| Supervisor.StopInOrder | internal/pkg/service-manager/service_manager.go:662-739 | a Stop call is the service's first, on a launched service, after Stop of every launched dependent returned or timed out |
| Supervisor.StopExact | internal/pkg/service-manager/service_manager.go:662-682 | at the end Stop calls are distinct and on launched services only, and they cover all of those exactly when the once-only body did not begin before startup, or nothing was launched; Stop calls before Run stored its cancel function included |
| Supervisor.EarlyStopMisses | internal/pkg/service-manager/service_manager.go:662-681 | a run in which Stop came before Run stored its cancel function: a service is launched after it, runs on uncancelled, and is never stopped |
| Tunnels.CandidatesExact | internal/pkg/services/pr0xteus/pool.go:290-322 | a configuration is a candidate exactly when it is in the spec, not in the failure cache and not excluded |
| Tunnels.PoolState.constructor | internal/pkg/services/pr0xteus/pool.go:262-267 | a new pool has an empty slot and no failures |
| Tunnels.PoolState.Acquire | internal/pkg/services/pr0xteus/pool.go:383-415 | hands out the hot tunnel with its count raised unless the slot is empty, not hot or excluded; a refusal says which and changes nothing |
| Tunnels.PoolState.AcquireContainer | internal/pkg/services/pr0xteus/pool.go:433-449 | succeeds exactly when the slot holds that container hot, and raises its count |
| Tunnels.PoolState.Release | internal/pkg/services/pr0xteus/pool.go:420-429 | lowers the count of whatever tunnel is in the slot now, never below zero |
| Tunnels.PoolState.CleanFailed | internal/pkg/services/pr0xteus/pool.go:336-342 | removes exactly the entries older than the TTL |
| Tunnels.PoolState.PickConf | internal/pkg/services/pr0xteus/pool.go:290-322 | after cleaning, some candidate, or exhaustion exactly when there is none |
| Tunnels.CloseAll | internal/pkg/services/pr0xteus/pool.go:891-911 | graceful shutdown kills exactly the tracked containers and clears exactly their slots |
| FailureCache.CacheIsLatest | internal/pkg/services/pr0xteus/pool.go:327-342 | however often the cache was cleaned before, what survives a cleaning now is exactly the last recorded failure, if it is within the TTL |
| FailureCache.LatestIsMax | internal/pkg/services/pr0xteus/pool.go:327-342 | with a non-decreasing clock the last recorded failure is the most recent one |
| FailureCache.MarkBans | internal/pkg/services/pr0xteus/pool.go:327-332 | a recorded failure keeps the configuration out of the candidates for exactly the TTL, and changes nothing for any other |
| FailureCache.TruthfulExactly | internal/pkg/services/pr0xteus/pool.go:290-342 | for clock readings in any order the cache agrees with the failure history about a configuration, for every TTL, if and only if the failure written last, seen at the latest of now and the cleanings since, is as old as the most recent failure is now |
| FailureCache.LateWriteForgets | internal/pkg/services/pr0xteus/pool.go:915-929 | two failures written in the other order than their times were read, after which a configuration that failed within the TTL is eligible again |
| FailureCache.CacheExactly | internal/pkg/services/pr0xteus/pool.go:327-342 | for clock readings in any order: a configuration is banned exactly when its failure written last had not expired now or at any cleaning since |
| FailureCache.LatePickForgets | internal/pkg/services/pr0xteus/pool.go:659-661 | a pick that read its time before another pick's cleaning misses a failure within the TTL |
| FailureCache.CandidatesFromHistory | internal/pkg/services/pr0xteus/pool.go:290-322 | the candidates are exactly the configured, non-excluded configurations with no failure of any kind in the last TTL |
| Leases.Registry.constructor | internal/pkg/services/pr0xteus/lease.go:44-54 | a new registry holds no lease |
| Leases.Registry.PruneExpired | internal/pkg/services/pr0xteus/lease.go:126-132 | removes exactly the leases whose expiry is not after now |
| Leases.Registry.Issue | internal/pkg/services/pr0xteus/lease.go:56-105 | refuses an incomplete acquisition without a change; otherwise prunes and records pool, container, URL, gateway and digest until now plus the TTL |
| Leases.Registry.Lookup | internal/pkg/services/pr0xteus/lease.go:107-124 | prunes, then finds the record exactly when ID and secret digest match |
| Leases.TableIsHistory | internal/pkg/services/pr0xteus/lease.go:56-132 | pruning along the way never shows: the table pruned now is the unexpired part of what was last issued per ID |
| Leases.LookupExact | internal/pkg/services/pr0xteus/lease.go:56-132 | with distinct IDs a lookup succeeds exactly when the ID was issued with that digest less than a TTL ago, and returns the record as issued |
| Leases.IssuedFound | internal/pkg/services/pr0xteus/lease.go:56-124 | an issue for an acquisition, anywhere in a history with distinct IDs, is found exactly before issue time plus TTL, with the acquisition's own pool, container, URL and gateway |
| Gateway.ReleaseConn.constructor | internal/pkg/services/pr0xteus/pool.go:880-885 | a new connection has not released |
| Gateway.ReleaseConn.Close | internal/pkg/services/pr0xteus/proxy_gateway.go:166-181 | the first Close releases the pool's slot, a later one does not, and the underlying result is passed on |
| Gateway.CloseRepeatedly | internal/pkg/services/pr0xteus/proxy_gateway.go:172-181 | any positive number of Close calls releases exactly once |
| Gateway.ReserveAndRelease | internal/pkg/services/pr0xteus/pool.go:420-449 | a reservation given back leaves the slot as it was |
| Gateway.ReleaseTwice | internal/pkg/services/pr0xteus/pool.go:420-429 | a second release changes nothing exactly when the slot is empty or counted at most one acquisition |
| Gateway.ReleaseAgain | internal/pkg/services/pr0xteus/pool.go:420-429 | with an acquisition in between, a second release takes that one off the count, whatever the count was |
| Gateway.DialLease | internal/pkg/services/pr0xteus/pool.go:813-886 | a connection exactly when the lease is valid, its pool holds its container hot and the dial succeeds; then one reservation on that container is held by it, and on every other path all slots are as before |
| Gateway.IssueThenDial | internal/pkg/services/pr0xteus/pool.go:768-886 | a lease issued for an acquisition connects exactly when the acquisition is complete, the secret matches, the TTL has not passed, the acquisition's pool holds its container hot and the dial succeeds; the connection then holds one reservation there |
| PoolMachine.EventMoves | internal/pkg/services/pr0xteus/pool.go:383-449 | every step of the machine changes the slots by one acquisition, release, publication, clearing or demotion and in no other way; only publication can make a tunnel hot |
| PoolMachine.InvKept | internal/pkg/services/pr0xteus/pool.go:579-705 | every step keeps in-flight conservation, single publication, lock ownership, exclusion and the idle-snapshot bound |
| PoolMachine.ReachableInv | internal/pkg/services/pr0xteus/pool.go:529-705 | those hold in every reachable state, for any pools and fallbacks |
| PoolMachine.SpawnExclusive | internal/pkg/services/pr0xteus/pool.go:529-540 | at most one spawn in progress per pool, and no request holds two pools' spawn locks |
| PoolMachine.HolderProgress | internal/pkg/services/pr0xteus/pool.go:632-654 | the holder of a spawn lock always has a step of its own that waits for nobody and leads to the unlock in a bounded number, so cyclic fallbacks cannot deadlock |
| PoolMachine.NoDeadlock | internal/pkg/services/pr0xteus/pool.go:579-654 | in every reachable state with an unfinished request some request can take a step, so with the bound on steps every request ends |
| PoolMachine.RequestEnds | internal/pkg/services/pr0xteus/pool.go:579-627 | every step of a request uses up one of at most fourteen, and it changes pool at most once, to the fallback of the pool that failed it, after that pool's lock is released |
| PoolRoutes.TryExactly | internal/pkg/services/pr0xteus/pool.go:383-407 | a look at the slot serves a request exactly when the tunnel is hot and differs from the excluded URL in scheme or host; the request gets that container, otherwise nothing changes |
| PoolRoutes.HopExactly | internal/pkg/services/pr0xteus/pool.go:599-626 | a request that gives a pool up goes on at its fallback exactly when it allows one, has not hopped and the fallback is known, whatever it excludes |
| PoolRoutes.FallbackExact | internal/pkg/services/pr0xteus/pool.go:579-627 | along any run a request keeps what it asked for, ends empty-handed only after the fallback was tried too if there is one, and gets a cell only from its pool or that fallback |
| PoolRoutes.LeaseFallbackExact | internal/pkg/services/pr0xteus/pool.go:786-809 | the same for a request that excludes the cell of a lease |
| PoolRoutes.HolderMay | internal/pkg/services/pr0xteus/pool.go:757-782 | a holder can always give its container back, and have a lease issued for exactly that pool, container and URL |
| PoolMachine.OneSpawnForAll | internal/pkg/services/pr0xteus/pool.go:632-705 | from a cold pool, without exclusions, kills or health failures, any schedule publishes at most one container and every caller served by the pool gets that one |
| PoolMachine.FlightMoves | internal/pkg/services/pr0xteus/pool.go:383-449 | each kind of slot change keeps the in-flight count within the outstanding acquisitions, with equality while none outlived its tunnel |
| PoolMachine.InFlightBounds | internal/pkg/services/pr0xteus/pool.go:383-449 | in every reachable state 0 <= InFlight <= outstanding acquisitions of the pool, equal unless one may have outlived its tunnel since the pool last had none outstanding, zero once all are released |
| PoolMachine.LedgerMove | internal/pkg/services/pr0xteus/pool.go:420-429 | each slot change keeps the book: acquisitions of the slot's own container are its count plus what releases of other containers took off it |
| PoolMachine.InUseExact | internal/pkg/services/pr0xteus/pool.go:383-449 | after any run the slot's container is held by somebody exactly when its count or what the count lost is positive, and nothing is lost while no acquisition has outlived its tunnel |
| PoolMachine.CellsKept | internal/pkg/services/pr0xteus/pool.go:685-699 | no container is ever in two slots, slots show the URL of birth, and a tunnel waiting to be published is hot, counted once and in no slot |
| PoolMachine.LeavingIsGone | internal/pkg/services/pr0xteus/reaper.go:333-358 | a container that stops being hot or leaves its slot is from then on hot nowhere and waiting to be published nowhere |
| PoolRoutes.MarkFailedExactly | internal/pkg/services/pr0xteus/pool.go:915-929 | MarkFailed takes the tunnel out of service, for good, exactly when it was built from that configuration, and touches nothing else |
| PoolRoutes.FailedLeftToIdle | internal/pkg/services/pr0xteus/reaper.go:168-237 | a tunnel marked failed is never health-reaped, and idle-reaped exactly when its count is zero |
| PoolRoutes.MarkReapingExactly | internal/pkg/services/pr0xteus/reaper.go:339-345 | a reaper's mark takes out of service exactly the container its snapshot saw |
| PoolMachine.GoneStep | internal/pkg/services/pr0xteus/pool.go:383-449 | no step brings such a container back or hands it out |
| PoolMachine.GoneForever | internal/pkg/services/pr0xteus/pool.go:431-449 | along any run it stays gone and its outstanding acquisitions only shrink, so no acquire or lease acquire ever returns it |
| PoolMachine.LeaseYieldsIssued | internal/pkg/services/pr0xteus/pool.go:813-830 | a lookup returns the record as issued, along any run without a second issue of the ID; whenever it is reserved later, in any run, the recorded container is hot in the recorded pool and gains one acquisition |
| PoolMachine.LeasePinned | internal/pkg/services/pr0xteus/pool.go:813-830 | along any run that does not issue the ID again, a lease on record is the one issued |
| PoolMachine.LeaseKept | internal/pkg/services/pr0xteus/lease.go:126-132 | a lease stays on record as issued along any run that neither issues its ID again nor lets it expire |
| PoolMachine.LeaseUsableExactly | internal/pkg/services/pr0xteus/pool.go:431-449 | a record in hand can be reserved exactly while its pool's slot holds its container hot |
| PoolMachine.DeadLease | internal/pkg/services/pr0xteus/pool.go:431-449 | once a container has stopped being hot or left its slot, no record of it can be reserved in any run, looked up before or after; DestroyCell kills before it clears the slot, and until then the lease still works |
| PoolMachine.ExcludedCellNotReturned | internal/pkg/services/pr0xteus/pool.go:579-654 | a request that excludes a valid lease never ends with that lease's cell, through the pool or the one-hop fallback, in any interleaving |
| PoolKills.IdleReapRace | internal/pkg/services/pr0xteus/reaper.go:173-204 | from every reachable state with an idle hot tunnel, a schedule in which the idle reaper is about to mark that tunnel while it is in use |
| PoolMachine.IdleReapExact | internal/pkg/services/pr0xteus/reaper.go:168-205 | the idle loop about to mark the tunnel it saw, without an acquisition since its snapshot: the tunnel is in use exactly when its count has lost acquisitions, and not at all while none has outlived its tunnel |
| PoolKills.IdleHotReachable | internal/pkg/services/pr0xteus/reaper.go:173-192 | every pool can hold an idle hot tunnel |
| PoolKills.LostReleaseRace | internal/pkg/services/pr0xteus/pool.go:420-429 | in every pool a run without an acquisition after the snapshot in which the idle reaper is about to mark a tunnel in use, because a former tunnel's release lowered its count |
| PoolKills.HealthReapIgnoresUse | internal/pkg/services/pr0xteus/reaper.go:233-262 | from every reachable state with a hot tunnel, whatever is in flight, a health reap takes its snapshot, marks the tunnel and is about to kill it |
| PoolKills.HealthReapHitsUse | internal/pkg/services/pr0xteus/reaper.go:233-262 | in every pool this hits a tunnel in use with nothing acquired since the snapshot and nothing outlived |
| PoolKills.MarkExact | internal/pkg/services/pr0xteus/reaper.go:333-345 | idle or health, a reaper about to mark the tunnel it saw: the tunnel is in use exactly when its count or what the count lost is positive |
| PoolKills.HoldersSince | internal/pkg/services/pr0xteus/pool.go:383-449 | along any run the holders of a container change by exactly its acquisitions and its releases |
| PoolKills.KillExact | internal/pkg/services/pr0xteus/reaper.go:347-356 | at any Kill, any time after its snapshot and whatever the slot holds, the container is in use exactly when fewer of its acquisitions were released since the snapshot than were outstanding at it or made since |
| PoolKills.IdleKillSafe | internal/pkg/services/pr0xteus/reaper.go:168-205 | a Kill of the idle loop hits nobody, whatever the slot holds, if nothing of the pool had outlived its tunnel at the snapshot and nothing was acquired since |
| PoolKills.OrphanHeldExact | internal/pkg/services/pr0xteus/reaper.go:118-129 | an orphan pass kills a listed cell somebody holds exactly when it is old enough, reapable and not in its pool's slot, and then the pool has an acquisition that outlived its tunnel |
| PoolKills.OrphanKillsHeld | internal/pkg/services/pr0xteus/reaper.go:118-129 | in every pool a held cell that an orphan pass kills once it is old enough |
| PoolKills.OrphanGap | internal/pkg/services/pr0xteus/reaper.go:118-129 | a container outside the keep set that is held by the time of its Kill was not published yet when the set was taken, or was held then and had outlived its tunnel |
| PoolKills.HandedOutExactly | internal/pkg/services/pr0xteus/cells.go:90-119 | a container, killed or not, can be handed out in some continuation exactly while it is hot in a slot or waits to be published |
| PoolKills.ReaperKillsGone | internal/pkg/services/pr0xteus/reaper.go:339-350 | what a reaper kills is hot nowhere and waits nowhere by then, whatever its slot holds, so it is never handed out again |
| PoolKills.DestroyedStillServed | internal/pkg/services/pr0xteus/cells.go:108-112 | in every pool a cell that DestroyCell has killed and is handed out before the slot is cleared |
| PoolKills.KilledThenPublished | internal/pkg/services/pr0xteus/cells.go:108-112 | in every pool a cell killed before its publication that is hot afterwards, with nobody at work to clear it |
| PoolKills.ClearExact | internal/pkg/services/pr0xteus/reaper.go:358 | a clear finds a container other than its killer's exactly when the slot is taken and something was published there since the killer's snapshot |
| PoolKills.ClearedWasKilled | internal/pkg/services/pr0xteus/cells.go:108-112 | nothing is cleared before Kill was called on the container the killer saw |
| PoolKills.ClearRemovesSuccessor | internal/pkg/services/pr0xteus/reaper.go:358 | in every pool a clear that removes a hot successor in use which nobody killed |
| Orphans.ReapOrphans | internal/pkg/services/pr0xteus/spawner.go:876-924 | the Kill calls are those of the doomed containers in listing order, and the count returned is their number |
| Orphans.KilledExactly | internal/pkg/services/pr0xteus/spawner.go:900-921 | a container is killed exactly when it is listed, untracked, old enough on a ticker pass, and in a reapable state |
| Orphans.DoomedIsOrphaned | internal/pkg/services/pr0xteus/spawner.go:854-1015 | the pass by name and number: not kept, on a ticker pass at least SpawnTimeout + 30 s old, and created, running, exited, dead, paused or restarting |
| Orphans.SparesInFlight | internal/pkg/services/pr0xteus/reaper.go:110-139 | some cell within its spawn deadline at the snapshot can be killed exactly when the age check comes more than 29 seconds later, whatever the spawn timeout |
| Orphans.CreatedSpared | internal/pkg/services/pr0xteus/spawner.go:905-916 | a created container outside the keep set is killed by a ticker pass exactly from the minimum age on; a younger one is spared |
| CellRecorder.Recorder.constructor | internal/pkg/cellproxy/recorder.go:55-64 | an empty recorder, with the top-N default for a non-positive argument |
| CellRecorder.Recorder.Open | internal/pkg/cellproxy/recorder.go:69-80 | returns the bucket's key and raises requests and active there and in the totals |
| CellRecorder.Recorder.Close | internal/pkg/cellproxy/recorder.go:83-94 | lowers active in the bucket and in the totals, each guarded at zero |
| CellRecorder.Recorder.Up | internal/pkg/cellproxy/recorder.go:97-106 | adds the bytes to the bucket, if known, and to the totals |
| CellRecorder.Recorder.Down | internal/pkg/cellproxy/recorder.go:109-118 | adds the bytes to the bucket, if known, and to the totals |
| CellRecorder.Recorder.Snapshot | internal/pkg/cellproxy/recorder.go:131-156 | min(topN, buckets) distinct buckets with their counts, by falling volume, and no bucket left out is larger than one shown |
| CellRecorder.Ranked | internal/pkg/cellproxy/recorder.go:135-147 | every bucket once, by falling volume, for any map order |
| Traffic.KeysOpen | internal/pkg/cellproxy/recorder.go:160-176 | opening keeps at most cap own buckets, all for destinations seen, and folds nothing while there is room |
| Traffic.CountingConn.constructor | internal/pkg/cellproxy/conn.go:20-22 | a new connection is open under its key |
| Traffic.CountingConn.Read | internal/pkg/cellproxy/conn.go:25-33 | bytes read count as down, nothing is recorded for an empty read |
| Traffic.CountingConn.Write | internal/pkg/cellproxy/conn.go:36-44 | bytes written count as up, nothing is recorded for an empty write |
| Traffic.CountingConn.Close | internal/pkg/cellproxy/conn.go:47-54 | only the first Close reaches the recorder |
| Traffic.SumBump | internal/pkg/cellproxy/recorder.go:69-118 | raising one bucket raises the sum over all buckets by as much |
| Traffic.GuardsIdle | internal/pkg/cellproxy/recorder.go:83-94 | closing an open connection always finds it counted in its bucket and in the totals, so the guards never bite |
| Traffic.InvPlay | internal/pkg/cellproxy/recorder.go:69-176 | any run of opens, transfers and closes keeps the fold, the totals, the live counts and the key bounds |
| Traffic.BoundedIsFold | internal/pkg/cellproxy/recorder.go:69-176 | after any run each tracked destination has its unbounded counts, the overflow bucket is the sum over all destinations without a bucket, and there are at most cap + 1 buckets |
| Traffic.ShippedBound | internal/pkg/cellproxy/recorder.go:13-19 | with the shipped cap of 2048 there are at most 2049 buckets, and each destination has its own while fewer than 2048 were seen |
| Traffic.TotalsConserved | internal/pkg/cellproxy/recorder.go:69-118 | after any run the totals are the sum of the buckets and the tally of all connections, each bucket is the tally of the connections counted there, every open is one request, and each connection carries what the events sent over it |
| Traffic.FoldedForever | internal/pkg/cellproxy/recorder.go:160-176 | a destination once folded into the overflow bucket never gets its own |
| Retry.TryOnce | pkg/client/client.go:259-338 | what one attempt asks of the pool by its number, that it is retried exactly on a retryable error or status, and that it closes a response exactly when it does not return it |
| Retry.LatestProxyIs | pkg/client/client.go:222-224 | the remembered proxy is that of the latest attempt that obtained one |
| Retry.Do | pkg/client/client.go:200-237 | at most MaxAttempts attempts; it ends for the reason the answers give: a response that is not retryable is returned, an error that is not retryable or an aborted backoff halts with that error, a used-up budget is reported with the last cause; every other response is closed exactly once; fresh connection on attempt 2, exclusion of the latest proxy from 3, fallback from 5 |
| Retry.DoExactly | pkg/client/client.go:206-236 | the loop ends after k attempts with an outcome if and only if the answers let it reach attempt k and end there so; exhaustion exactly when every attempt ended retryable and no backoff was aborted |
| Retry.ExclusionExact | pkg/client/client.go:222-306 | from the third attempt on the pool is asked to exclude the proxy of the latest earlier attempt whose pool call returned one, whatever became of that attempt; before that, or without one, nothing |
| Retry.AnswersSorted | pkg/client/retry.go:126-170 | what is returned is not 429, 502, 503 or 504 and every response closed is; the loop halts exactly on cancellation, deadline, exhausted pool or forbidden direct dial, goes on after any other error, and reports the last cause |
| Retry.DispatchPublicFirst | pkg/client/dispatch.go:36-67 | the direct answer is returned exactly when there is no error and no block; any other response, also one that comes with an error, is closed; otherwise the loop runs with all its guarantees, unless the body cannot be rewound |
| Retry.BackoffFor | pkg/client/retry.go:99-122 | no wait before the first attempt, then initial times multiplier to the attempt minus two, capped, then jittered |
| Retry.GrowthExact | pkg/client/retry.go:104-112 | the initial wait before attempt 2, and from one attempt to the next the multiplier times as much, up to the cap |
| Retry.JitterSpan | pkg/client/retry.go:114-119 | the jitter spreads a wait evenly: the lowest draw takes the whole fraction off, the middle one nothing |
| Retry.JitterExact | pkg/client/retry.go:110-119 | for every policy with a base that is not negative: all waits before an attempt stay within MaxBackoff exactly when there is no jitter or the capped base times one plus the jitter is within it |
| Retry.JitterExceedsMax | pkg/client/retry.go:110-119 | a policy whose base is below the cap and whose wait exceeds it |
| Retry.DefaultWithinMax | pkg/client/retry.go:43-61 | the default policy waits about 1, 2, 4 and 8 seconds and keeps the bound on all its attempts |
| DotEnv.SplitJoin | internal/pkg/services/pr0xteus/bootstrap.go:490-516 | splitting what was joined gives the lines back |
| DotEnv.RewriteMatching | internal/pkg/services/pr0xteus/bootstrap.go:493-501 | every line with the key becomes the entry, the others stay, and found tells whether there was one |
| DotEnv.ReplaceDotEnvValue | internal/pkg/services/pr0xteus/bootstrap.go:489-517 | the edited file: all matching lines rewritten, or the entry added before the final newline |
| DotEnv.LoadValue | internal/pkg/services/pr0xteus/bootstrap.go:588-618 | the value of the first line that carries the key, or none |
| DotEnv.KeyAgrees | internal/pkg/services/pr0xteus/bootstrap.go:494-606 | editor and reader see the same key on every line, though the reader trims first |
| DotEnv.ReadIsSplit | internal/pkg/services/pr0xteus/bootstrap.go:598-611 | scanner lines, without carriage returns and a final empty line, read the same as split lines |
| DotEnv.EntryReads | internal/pkg/services/pr0xteus/bootstrap.go:499-610 | the line the editor writes is one the reader attributes to that key |
| DotEnv.UpsertThenRead | internal/pkg/services/pr0xteus/bootstrap.go:489-611 | reading a key just written gives the value without trailing space and surrounding quotes, whatever the file held |
| DotEnv.UpsertReadsBack | internal/pkg/services/pr0xteus/bootstrap.go:489-611 | it gives the very value written exactly when that has no trailing space and no quote at either end |
| DotEnv.QuotedValueChanges | internal/pkg/services/pr0xteus/bootstrap.go:610 | a quoted value that comes back without its quotes |
| DotEnv.OtherKeysUnchanged | internal/pkg/services/pr0xteus/bootstrap.go:489-611 | the value read for every other key, the API token among them, is unchanged |
| DotEnv.UpsertIdempotent | internal/pkg/services/pr0xteus/bootstrap.go:489-517 | writing the same value twice is writing it once |
| DotEnv.OtherLinesKept | internal/pkg/services/pr0xteus/bootstrap.go:493-513 | all other lines stay, in order; at most a missing final newline is added |
| DotEnv.AppendedAtEnd | internal/pkg/services/pr0xteus/bootstrap.go:503-516 | a new key goes to the end of the text on a line of its own, after a newline if the last line had none |
| DotEnv.RewrittenInPlace | internal/pkg/services/pr0xteus/bootstrap.go:493-501 | a known key is rewritten in place on every line that has it |
| DotEnv.SpacedKeyed | internal/pkg/services/pr0xteus/bootstrap.go:494-606 | blanks and tabs around a key do not matter |
| DotEnv.CommentSkipped | internal/pkg/services/pr0xteus/bootstrap.go:600-603 | a comment line is no entry for the reader |
| DotEnv.FirstCarrierRead | internal/pkg/services/pr0xteus/bootstrap.go:599-611 | the first line that carries the key decides, and without one there is no value |

## Left out

- Docker calls, container and network configuration, log capture and readiness probes of the spawner: foreign calls, present only as Spawn and Kill with arbitrary outcomes; a failed container listing, which ends a pass at once, is left out.
- HTTP handlers, JSON and URL parsing, authentication, pagination and views: plumbing that would only add easy members.
- SOCKS5 and HTTP relaying and header copying: I/O over libraries.
- Randomness and cryptography: lease IDs are assumed distinct where a theorem says so, digests are an arbitrary function, random choices are arbitrary, and the random source does not fail.
- Configuration loading, file writes and permission checks, the rest of the bootstrap code: file-system behaviour.
- Metrics, logging, command wrappers, scripts and images.
- Supervisor: the order is resolved before the first step; Run's early returns (instantiation error, no services, cyclic order) are left out, and a panic inside a service is one more way for its Run to fail.
- PoolMachine: which configuration a spawn uses is arbitrary there; the failure cache is proved separately against its history.
- PoolMachine: timestamps of use and health, and the idle age and live-connection probes before an idle reap, are taken as passed, so the reaper may act at any time.
- PoolMachine: docker's listing is not part of it, so DestroyCell and the orphan pass may kill any container at any time; which one an orphan pass kills is proved from its listing.
- PoolMachine: lease expiry is a step that may drop a lease at any time; the exact lifetime is proved in the registry.
- PoolMachine: a caller is assumed to release each acquisition at most once, which the connection wrapper guarantees.
- Gateway.DialLease: pool and registry are used in one go; the pool machine separates the lookup from the reservation and interleaves both with everything else.
- CellRecorder.Recorder.Snapshot: sorts by insertion on a sequence instead of the library's in-place sort, and ties come out in any order.
- CellRecorder: counters are unbounded integers, 64-bit wrap-around is not modelled.
- Retry.BackoffFor: real arithmetic without floating-point rounding or truncation to whole nanoseconds.
- DotEnv.LoadValue: the reader for any key, without the check of the token's form that follows and without the scanner's limit on line length.

# Verified model of the vLLM switch controller

The controller routes OpenAI requests to a pool of vLLM backends of which at most one may be awake, and
coordinates how much pinned CPU backup memory the backend processes give back. Two parts decide whether that is
safe, and they are modelled and proved here independently of each other.

## The switch protocol

`SwitchProtocol` is a labelled transition system over `controller/router.py`: any number of requests and admin
switches, one program counter each, one lock. Every action resolves one await and carries out the local code up to the
next one; `Cancel` and `Fail` are possible at the awaits. The state holds the controller's own fields
(`Lifecycle.Book`, the reservation counts), the lock holder's phase, each request's flow with its cached cleanup
tasks, and two things nobody in the code can read: the history of lifecycle calls, probe answers, failures,
reservations and streams, and the set of backends that are really awake.

- `Lifecycle`: the bookkeeping of `controller/state.py` as an object changed in place, and the policy of
  `controller/policies.py` (`Decide`; both policies of the source decide alike).
- `SwitchHistory`: what a history must look like, said about the history alone.
- `SwitchInvariant`, `SwitchSteps`: the joint invariant over bookkeeping, reservations, cleanups and observations,
  and its preservation by every step.
- `SwitchTheorems`: safety over all schedules, about observations; no assumption about backends.
- `SwitchBackends`: what follows for the real backends when probes answer truthfully, nobody else changes the backends,
  and a lifecycle call has its effect, if any, before it returns or fails.
- `SwitchRecovery`: exactly when, after any failures, a new request can still be served without anybody failing.
- `EnsureReady`: `ensure_model_ready_locked`, with the transition and polling loops of `controller/vllm_client.py`, as
  imperative code over the mutable state. Every execution, however its awaits resolve and whatever other requests do
  meanwhile, is shown to be a run of the transition system and to end by one deadline. `World` stands for the clock,
  the outcomes of awaits and the other requests; an answer enters the history only if the last await brought it
  (`Grounded`), and only once. The log of answers with their times says how the polling was paced.

Aliases are listed in sorted order in `Config.names`; the source sorts them before probing. A startup state is
`Init`, from `FromModels`.

## The backup coordinator

- `BackupLedger`: one client's record and what registering, reporting and requesting do to it, as values.
- `BackupAllocator`: the order of victims (a stable sort), the greedy allocation, totals over the pool, the cap.
- `BackupPool`: the record and the pool as the objects `controller/backup_pool.py` changes in place, with the
  allocation loop; every method is tied to the value functions.
- `BackupRuns`: obligations over any sequence of registrations, reports, operator releases, global targets and cap
  polls.
- `BackupWorker`: the documented worker as the other party, over channels whose messages may be lost, repeated
  and reordered: a message stays on its channel and may arrive never, once or often. A poll over HTTP also asks the
  pool to enqueue towards the cap first; that is a `CapPoll` before the `Poll`.
- `MemoryPressure`, `PressureRuns`: the monitor as an object and as a value, and its properties over runs in which any
  pool operation may come between two evaluations. Watermarks use exact reals and drop the fraction.

Three points where a promise had to be read with care. A lifecycle call may return without ever having its effect; its
holder then polls for an answer that cannot come, so a later request is served only after that holder's own failure, its
deadline. This is the one reachable case in which a failure-free run does not succeed (`Recoverable`, `OneFailureFrees`,
`CallsCanReturnInVain`). While nothing is acknowledged, a client's obligation is bounded by the largest evictable figure
of the stretch if the report standing at its beginning counts as one of them (`NoDuplicateObligations`); for the
reports inside the stretch alone the exact condition is `StretchBoundIff`. And two queuing evaluations are a cooldown
apart whether or not the clock is monotone, because the code compares with the last queuing time only.

## Model

| member | source | states |
|---|---|---|
| Lifecycle.ControllerState.MarkAwake | controller/state.py:48-51 | A known alias becomes awake and active; an unknown one is refused without effect |
| Lifecycle.ControllerState.MarkSleeping | controller/state.py:53-57 | A known alias becomes asleep and stops being active if it was; otherwise no effect |
| Lifecycle.ControllerState.MarkWaking | controller/state.py:59-61 | Only the state of a known alias changes, the active model does not |
| Lifecycle.ControllerState.MarkSleepingInProgress | controller/state.py:63-65 | Only the state of a known alias changes, the active model does not |
| Lifecycle.ControllerState.MarkError | controller/state.py:67-71 | A known alias is put in doubt and stops being active if it was |
| Lifecycle.ControllerState.EnterRequest | controller/state.py:77-82 | Entering counts one more request on a known alias and nothing else |
| Lifecycle.ControllerState.ExitRequest | controller/state.py:84-91 | Leaving counts one less, drops an entry that reaches zero, and refuses a missing entry |
| Lifecycle.NewState | controller/state.py:32-42 | The configured start, or the refusal of a startup model that is not configured |
| Lifecycle.DecideMeans | controller/policies.py:24-40 | The policy case by case: an unknown target is refused; nothing for the awake active target; a wake without another active model; otherwise drain, sleep the active model, wake the target |
| SwitchSteps.StepKeeps | controller/router.py:222-555 | Every step of every request keeps the joint invariant of bookkeeping, reservations, cleanups and observations |
| SwitchSteps.RunKeeps | controller/router.py:222-555 | The joint invariant holds after every schedule from the configured start |
| SwitchTheorems.LifecycleCallsAreObserved | controller/router.py:366-478 | When a sleep or wake is issued, the last event of every other alias is its answer that it sleeps, and the alias itself last answered the opposite of the goal |
| SwitchTheorems.LifecycleCallsFindNobody | controller/router.py:419-442 | When a sleep or wake is issued, no reservation and no upstream stream is open on any alias, although the drain condition ignores the target |
| SwitchTheorems.FailClosed | controller/router.py:383-402 | After a sleep or wake of m failed, no lifecycle call, successful switch or reservation happens on any alias before a later probe of m has answered |
| SwitchTheorems.SwitchContract | controller/router.py:410-478 | A successful switch, and every reservation, finds the target observed awake and every other alias observed asleep, after at most one sleep and one wake under this lock |
| SwitchTheorems.SettledWhenUnlocked | controller/router.py:366-409 | Once started, every release of the lock leaves all aliases but at most one asleep, and an alias is active exactly when awake |
| SwitchTheorems.SecondGuardNeverRaises | controller/router.py:403-409 | The second reconciliation has at most one alias to probe in all, so its refusal of several awake backends is unreachable |
| SwitchTheorems.ReservedMeansAwake | controller/router.py:252-272 | An alias with a reservation is awake and active, is the only one reserved, and no transition is under way |
| SwitchTheorems.CountsAreExact | controller/state.py:77-91 | The counts equal the number of requests that entered and have not exited, per alias, with no zero entries |
| SwitchTheorems.ExactlyOnce | controller/router.py:50-82 | In every schedule with any number of cancellations, reservations and streams are entered and exited at most once, and exactly as often as entered when the request is over |
| SwitchTheorems.ReservationOutlivesStream | controller/router.py:499-510 | A reservation is given back only after the upstream stream it protects has been closed, also when closing it raises |
| SwitchTheorems.ExitNeverFails | controller/state.py:84-91 | Giving a reservation back always finds its count |
| SwitchTheorems.EventsAreRecorded | controller/router.py:366-478 | Every step of every request records the call, answer, failed transition, reservation or stream it stands for, so the claims about the history are not empty |
| SwitchTheorems.EveryAwaitCanBeCancelled | controller/router.py:72-82 | In every reachable state a cancellation can reach a request at each of its awaits, and is not forgotten |
| SwitchTheorems.HolderAwaitCanFail | controller/router.py:343-478 | Every await under the lock can fail, and then the lock is given up and the request has failed |
| SwitchTheorems.OutsideAwaitCanFail | controller/router.py:296-303 | The proxy call, stream setup, building the response and closing the upstream can each fail |
| SwitchTheorems.TeardownIsShared | controller/router.py:499-555 | The end of the body, the end of the response and a cancellation each start the one teardown of a stream or find it started |
| SwitchBackends.AtMostOneBackendAwake | controller/router.py:366-478 | With truthful probes and effects before return, at most one backend is really awake once startup reconciliation is over |
| SwitchBackends.AwakeIsNotRecordedAsleep | controller/router.py:366-478 | With the same assumptions, a backend that is really awake is never recorded asleep |
| SwitchBackends.ReservedIsServed | controller/router.py:252-272 | With the same assumptions, a reserved alias is really awake and it is the only one |
| SwitchRecovery.WaitingSucceeds | controller/router.py:327-478 | From every live state in which no call has returned in vain, a waiting request has a truthful continuation that serves it, with no failure or cancellation of anybody |
| SwitchRecovery.WaitingSucceedsIff | controller/router.py:327-478 | A waiting request has such a continuation exactly if no lifecycle call that returned without its effect is being verified |
| SwitchRecovery.Recoverable | controller/router.py:332-478 | After any truthful run with failures and at most one backend really awake, a new request for any configured alias can be served with nothing failing for anybody, exactly if no such call is being verified |
| SwitchRecovery.OneFailureFrees | controller/router.py:443-453 | In that one case the failure of the holder, and no other, lets the new request be served |
| SwitchRecovery.CallsCanReturnInVain | controller/vllm_client.py:211-228 | That case is reached by a concrete truthful run without any failure: a wake call returns and its backend stays asleep |
| EnsureReady.OthersKeep | controller/router.py:256-258 | Whatever other requests do while the holder is suspended, they keep the invariant and change nothing it relies on |
| EnsureReady.ObserveSleeping | controller/router.py:343-361 | A probe never outlasts the switch deadline |
| EnsureReady.ProbeAll | controller/router.py:367-374 | The loop is a run of the protocol that records each answer and collects the awake aliases, each of which has answered so; it raises only for a failed await or the deadline |
| EnsureReady.RefuseSeveral | controller/router.py:375-382 | Several awake aliases are all put in doubt and refused; the switch goes on exactly if there is at most one |
| EnsureReady.WaitUntilSleeping | controller/vllm_client.py:201-228 | The loop polls at once and then one pause after each answer, succeeds on the first expected answer and on no other, ends by its own and its caller's deadline, and fails only for a failed await or because the next answer was not to be had before the deadline |
| EnsureReady.TransitionAndWait | controller/vllm_client.py:155-181 | One lifecycle call and its verified post-condition share one deadline; it fails only for a failed await, a call that outlasts the deadline, or polling that does |
| EnsureReady.Drain | controller/router.py:419-428 | Draining ends by the deadline, succeeds with no reservation on another alias, and fails only for a failed await or because one is left at the deadline |
| EnsureReady.Attempt | controller/router.py:434-453 | A transition ends by the deadline; no call is issued at or after it; it fails only for a failed await or the deadline, and then leaves the alias in error and the lock free |
| EnsureReady.SleepPrevious | controller/router.py:419-456 | At most one sleep, of the previous model, before the deadline; the target is then being woken, or the switch has raised |
| EnsureReady.EnsureModelReadyLocked | controller/router.py:332-478 | For every resolution of its awaits: a run of the protocol that meets the contract or fails closed, ends by lock entry plus the timeout, and issues at most one sleep then one wake before it; it fails only if an await broke or was cancelled, at the deadline, or because two aliases answered awake at startup |
| EnsureReady.Boot | controller/state.py:32-42 | The controller as configured is a state from which every switch may start |
| EnsureReady.EnsureModelReady | controller/router.py:327-330 | An admin switch that finds the lock free: an unknown alias takes no lock and touches nothing; otherwise it succeeds, or fails closed for one of those causes, with the lock free again by the deadline |
| BackupLedger.AcceptedExactly | controller/backup_pool.py:175-209 | A report is accepted exactly if its disk figures agree, its process is the record's, and its counter is present as before and not lower |
| BackupLedger.WireReportAccepted | controller/backup_pool.py:187-199 | A schema-valid report is refused only from another process, after a report without a counter, or when its counter went back |
| BackupLedger.RegistrationExactly | controller/backup_pool.py:121-153 | A registration is accepted exactly from the same process; it refreshes identity, model and time, and keeps every figure |
| BackupLedger.AcceptedShows | controller/backup_pool.py:210-236 | After an accepted report the record shows the reported figures one by one, and the obligation falls by what was acknowledged, never below zero |
| BackupPool.ClientBackupUsage.Rebind | controller/backup_pool.py:137-153 | Registering again is refused without effect, or refreshes the identity only |
| BackupPool.BackupPoolState.RegisterClient | controller/backup_pool.py:108-153 | A new record, a refreshed one, or a refusal that leaves the whole pool unchanged |
| BackupPool.BackupPoolState.ReportUsage | controller/backup_pool.py:155-236 | Accepts exactly the acceptable reports; one record then shows the report; a refused one leaves the whole pool unchanged |
| BackupPool.BackupPoolState.RequestRelease | controller/backup_pool.py:238-253 | Queues the target as far as the client can spare it, and changes nothing but that obligation |
| BackupPool.BackupPoolState.ReleaseRequestSnapshot | controller/backup_pool.py:255-259 | Reading the command total and the obligation changes nothing; zeros for an unknown client |
| BackupPool.BackupPoolState.RequestReleaseBytes | controller/backup_pool.py:261-287 | The loop implements the greedy allocation; its receipt names exactly the changed clients, adds up to the smaller of target and spare bytes, and nobody is asked while a client of lower priority, older report or larger spare part has some left |
| BackupPool.BackupPoolState.MaybeEnqueueReleaseRequests | controller/backup_pool.py:289-293 | Nothing without a cap or when the bytes not pending are within it; otherwise the receipt adds up to what exceeds the cap or all spare bytes |
| BackupPool.BackupPoolState.Stats | controller/backup_pool.py:295-343 | Adding up the mutable records one by one gives the pending bytes and, if total less pending exceeds the cap, by how much |
| BackupAllocator.VictimsInOrder | controller/backup_pool.py:267-278 | Candidates come by looked-up model priority, then older report, then larger spare part |
| BackupAllocator.VictimOrder | controller/backup_pool.py:279-286 | While a client has something left to spare, nobody is asked before whom it comes |
| BackupAllocator.SortStable | controller/backup_pool.py:267-278 | Candidates with equal keys keep the order in which they registered |
| BackupAllocator.OrderDistinct | controller/backup_pool.py:267-278 | Exactly the clients with something to spare are candidates, each once |
| BackupAllocator.GreedyOptimal | controller/backup_pool.py:279-286 | On every prefix of the order, no other admissible plan takes more bytes |
| BackupAllocator.LowPrioritiesFirst | controller/backup_pool.py:261-287 | So for every priority threshold, no plan takes more from the clients up to it |
| BackupAllocator.OnePartial | controller/backup_pool.py:279-286 | At most one client is asked for part of what it has; those before give all, those after nothing |
| BackupAllocator.GrantedElsewhere | controller/backup_pool.py:279-286 | Records that are no candidates are unchanged |
| BackupAllocator.RequestRecords | controller/backup_pool.py:238-253 | Every record keeps all its figures but the obligation and the command total, which grow together within its spare bytes |
| BackupAllocator.RequestTotals | controller/backup_pool.py:261-287 | A request queues exactly the smaller of the target and all spare bytes |
| BackupAllocator.CapProgress | controller/backup_pool.py:289-325 | One cap poll brings what exceeds the cap down by all that can be spared, to zero at best |
| BackupAllocator.CapReached | controller/backup_pool.py:289-325 | Within the cap a poll changes nothing; above it, it requests down to the cap exactly or until nobody can spare any |
| BackupAllocator.CapFixedPoint | controller/backup_pool.py:289-325 | Any number of further cap polls without a new report change nothing |
| BackupRuns.ClientStep | controller/backup_pool.py:108-287 | To one client every operation is an accepted report or a grant within its spare bytes; registering again resets nothing |
| BackupRuns.ObligationsConserved | controller/backup_pool.py:210-252 | Over every run, requested bytes equal pending bytes plus credited ones |
| BackupRuns.CommandsOnlyGrow | controller/backup_pool.py:248-252 | The command total never decreases over any continuation |
| BackupRuns.CreditsAreBacked | controller/backup_pool.py:210-223 | Credited bytes are covered by the client's counter or, without one, by the footprint drops it showed |
| BackupRuns.PendingIsPeakBalance | controller/backup_pool.py:210-222 | The obligation is the largest excess of requested over acknowledged bytes of any final stretch of the run |
| BackupRuns.NoDuplicateObligations | controller/backup_pool.py:217-235 | While nothing is acknowledged the obligation never falls and stays within what was owed or the peak evictable figure, however bytes change state |
| BackupRuns.StretchBoundIff | controller/backup_pool.py:217-252 | By the reports inside the stretch alone that bound holds exactly if it holds for what is owed when the first of them arrives, so whenever no request precedes it |
| BackupRuns.StandingReportCounts | controller/backup_pool.py:244-253 | A concrete stretch without a report in which one request exceeds that narrower bound |
| BackupRuns.LedgerBalances | controller/schemas.py:92-120 | With valid reports every reachable record balances, and evictable bytes are the total less what only RAM can restore |
| BackupRuns.RequestsAreReclaimable | controller/backup_pool.py:244-253 | Right after any positive request the client owes no more than it can give up |
| BackupWorker.NoByteTwice | docs/cpu_backup_coordinator.md:99-113 | Under loss, repetition and reordering, a worker has executed exactly the largest total it heard, never more than was requested |
| BackupWorker.NothingForgiven | docs/cpu_backup_coordinator.md:110-126 | For any worker, pending covers what was requested less what was reported released since its first accepted report |
| BackupWorker.PendingIsExact | controller/backup_pool.py:187-222 | For a worker whose counter moves only by executing commands, pending is exactly that difference, so the clamp at zero never bites |
| BackupWorker.NoneRefused | controller/backup_pool.py:187-199 | A worker of one identity whose reports arrive in the order sent, some lost or repeated, has none refused |
| BackupWorker.PollBringsTotal | docs/cpu_backup_coordinator.md:101-109 | Hearing the answer to a poll, a worker has seen and executed everything requested so far |
| BackupWorker.Settles | docs/cpu_backup_coordinator.md:110-126 | Once such a worker has heard everything and freed what it owes, and its last report says so and has arrived, nothing is pending |
| MemoryPressure.EvaluationSets | controller/memory_pressure.py:91-129 | One evaluation figure by figure: a disabled monitor does nothing, a failed probe is only counted, a sample sets both marks and, under pressure, the target |
| MemoryPressure.MemoryPressureMonitor.Debounce | controller/memory_pressure.py:107-120 | One sample moves mode and counter as the hysteresis says |
| MemoryPressure.MemoryPressureMonitor.Reclaim | controller/memory_pressure.py:134-148 | A round asks for the shortfall, adds what was queued to the total, and records what stays unresolved |
| MemoryPressure.MemoryPressureMonitor.EvaluateOnce | controller/memory_pressure.py:91-148 | One evaluation of monitor and pool, probe failures, the cooldown and a disabled monitor included; its receipt adds up to the growth of the pending bytes |
| PressureRuns.HysteresisMatchesHistory | controller/memory_pressure.py:82-127 | Reclaiming exactly if N successful samples in a row were low and none since was high; the counter is N then, and the current low run otherwise |
| PressureRuns.WatermarksMean | controller/memory_pressure.py:82-89 | A sample is low exactly if below the absolute mark or a whole byte below the share of the total, and high exactly if not low and no recovery mark is above it |
| PressureRuns.PressureIsAnswered | controller/memory_pressure.py:129-148 | Under pressure by the history and once the last queuing time is a cooldown ago, pending bytes are brought to the shortage or as near as spare bytes allow |
| PressureRuns.OtherwiseNothing | controller/memory_pressure.py:122-132 | After a failed probe, without pressure by the history, or within the cooldown of the last queuing time, the pool is unchanged |
| PressureRuns.DisabledIsInert | controller/memory_pressure.py:91-93 | A disabled monitor never changes and never queues |
| PressureRuns.PressureNeverOverAsks | controller/memory_pressure.py:129-137 | After a round that passes the cooldown, anywhere in a run, pending bytes are at most what was pending or the shortage |
| PressureRuns.UnresolvedIsBeyondSpare | controller/memory_pressure.py:141-145 | What a round leaves unresolved is what was missing beyond all spare bytes; if it is positive, no client has any left |
| PressureRuns.TotalIsWhatWasQueued | controller/memory_pressure.py:138-140 | The monitor's total is the sum of what its evaluations queued, and at most what clients were asked for in all |
| PressureRuns.CooldownBoundsRequests | controller/memory_pressure.py:130-148 | Two queuing evaluations are at least the cooldown apart; a window holds at most floor(length / cooldown) + 1 |

## Left out

- HTTP, FastAPI and httpx plumbing, JSON parsing, header filtering, metrics and JSONL writing: input and output.
- `/proc` readers, launch, stop, smoke and validation scripts: they depend on the operating system.
- YAML and pydantic configuration: validated settings are preconditions (`Validated`, positive timeouts, distinct aliases).
- Telemetry fields of records and monitor (engine, gpu_uuid, metadata, created_at, latencies, last_queued, last_error, the last snapshot).
- Lifecycle effects that land after their call has failed: the code cannot exclude them; the theorems about observations do not need that, those in `SwitchBackends` and `SwitchRecovery` state the assumption.
- Lock fairness, starvation and the wait for the lock in `EnsureReady`: `Recoverable` says that a good continuation exists, not that the scheduler takes it.
- A raising exit of the reservation itself, and cancellation of cleanup tasks by a closing event loop; a raising exit of the upstream is modelled.
- `handle_openai_proxy`, `stream_response` and the cleanup objects are steps of the transition system, not imperative code: the identity of a cached cleanup task is modelled by its progress only.
- A response object that is returned but never called by the server: its stream is then not closed.
- The loop over several models to sleep: both policies name at most one.
- A probe that ignores its cancellation: the code abandons it and its answer, so only its silence is modelled.
- Local steps take no time in `EnsureReady`: the deadline holds up to the duration of code between awaits.
- Changing worker epochs: `BackupWorker` covers one controller epoch.
- Which tensors or disk bundles a worker releases, and whether the kernel gets the pages back.
- Floating-point rounding of watermarks, and the clock being read more than once inside one report.
- Concurrency inside the coordinator: its methods contain no await, so each is one step.

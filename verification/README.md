# Magnemite, modelled and proved in Dafny

Magnemite rolls application builds out to a fleet of Android boxes. A hub keeps
rollouts and install jobs, dispatches them to agents, watches the boxes and acts
on the ones that misbehave; the agents install split bundles and stream logs.
This project models the parts of it where an ordering, a byte layout or a
counter can go wrong, and proves what they guarantee. Nothing was executed; the
statements are about the model, which follows the code branch by branch.

| file | what it models |
|---|---|
| `RolloutModel.dfy`, `Dispatch.dfy` | jobs, rollouts and every service call on them as one step on two tables; the greedy dispatch pass |
| `Hub.dfy` | the same calls as code that rewrites rows in loops, proved to compute those steps |
| `RolloutSteps.dfy`, `RolloutRuns.dfy` | what every step keeps, and what follows for whole runs |
| `RolloutProgress.dfy`, `Candidates.dfy` | what can still happen to a queued job, and which jobs the candidate query leaves out |
| `RolloutCalls.dfy` | what each service call asks for and writes, field by field, in every run |
| `RolloutDone.dfy` | the status of a rollout after any call: judged and completed at once |
| `RolloutStuck.dfy` | how a rollout gets stuck behind its canaries, and out again |
| `DispatchLimits.dfy` | when a rollout's limit bounds what is in flight, and what a refused send costs |
| `Tick.dfy` | the flags that keep scheduler passes from overlapping |
| `Monitor.dfy`, `MonitorPass.dfy`, `MonitorService.dfy` | rule choice, ladders, cooldowns, quiet hours and circuit breakers over an event log |
| `MonitorReadings.dfy` | when a reading acts, and what it counts |
| `MonitorRuns.dfy`, `MonitorLadders.dfy` | breakers and ladders over whole runs |
| `MonitorDeferrals.dfy` | what becomes of a rung that was held up |
| `MonitorBoots.dfy` | which rules and ceilings let one pass boot a box twice |
| `Json.dfy`, `ConfigTemplate.dfy` | RFC 8259 text with holes; the template check and the substitution |
| `ConfigNames.dfy` | what each placeholder stands for in the rendered document, and which templates are accepted |
| `Zip.dfy`, `ZipWriter.dfy` | reading and writing ZIP, against PKWARE's APPNOTE.TXT |
| `Manifest.dfy`, `ManifestEncoder.dfy`, `ApkInfo.dfy` | Android's binary XML, read and written, and what a package says of itself |
| `PackageInfo.dfy` | the two together: from the bytes of a package or a bundle to what its manifest says |
| `LogStream.dfy`, `TailFollow.dfy` | the live log stream as two goroutines, the tail scan and the follower |
| `Apkm.dfy`, `ApkmNames.dfy` | choosing the splits of a bundle for one box, and what their names say |
| `Rotom.dfy`, `RotomRuns.dfy` | the Rotom sync, its debounce and its history |
| `Sampler.dfy` | one heartbeat kept for each slot of the clock |
| `Common.dfy` | what several of them use |

`dafny verify dfyconfig.toml` checks all of it.

## How it is modelled

- The database is two maps, and each exported service function is one atomic
  step on them: no other call lands between a function's reads and its writes.
  Writes succeed, rows are not deleted, and clocks do not go backwards.
- Monitor passes do not overlap. The scheduler sees to that (`Tick.dfy`), but
  "Run now" (`apps/hub/src/routes/internal.ts:280`) calls `evaluate` past its
  flag, so a pass that outlasts a heartbeat can be overtaken by one begun by
  hand; such runs are excluded.
- Agents report whenever they like: progress, heartbeats and results may come
  late, twice or for any job. Progress carries DOWNLOADING, EXTRACTING,
  INSTALLING or VERIFYING, which is all the installer sends.
- What the outside decides is a parameter, so every theorem holds for every
  answer it may give: which sockets accept a message, which rows a query
  returns in what order, whether a reading is bad, whether a window is open,
  what a poll listed, what a system call saw of a file.
- Code that changes things step by step is a method with its loops, proved
  against a function; the theorems are about the function. Classes hold the
  rows and the module-level variables of the services they model.

## Where the code does not do what one would expect

The model keeps the code as it is, and the project proves when it does meet the
expectation.

- A rollout's `maxConcurrency` bounds what one dispatch pass adds, not what is
  in flight: `RolloutLimitIsPerPass`, `DispatchRespectsLimits`. When it does bound
  that: `LimitHoldsIff`.
- The fleet-wide cap holds through every step except a progress report on a job
  that is back in the queue: `CapKeptWithoutLateReports`, `LateReportAddsOne`.
- A job retried in a closed rollout is queued and never dispatched:
  `RetryInClosedRolloutIsStranded`. In any other rollout it can still go:
  `QueuedCanGoIff`.
- Of the queued jobs a pass reads 500, and those it then passes over keep their
  places: with 500 of them in front, a job whose box is online is never
  dispatched: `OnlineBoxStarves`, `DispatchedIsNotCrowded`. One with fewer than
  500 in front of it is listed: `ListedIfRoom`.
- A rollout whose canaries were all cancelled waits behind them, and
  `resumeRollout` refuses it: `StuckUntilUnstuck`, `OnlyCancelGetsStuck`.
- A PAUSED rollout whose jobs are all over, resumed, stays RUNNING for good:
  `ResumedDoneStaysOpen`. It is the one way a finished rollout is left open:
  `DoneIsNotOpen`.
- The stall query's case for a job in flight without a beat never finds one:
  `StalledIsOldBeat`.
- `alreadySaid` is documented to keep an action held back by quiet hours from
  being announced at every cooldown. It does so for a tripped breaker only: the
  announcement of a held-back action names it, and does not count:
  `HeldBackIsRepeated`.
- Reconnects hand a job out past `maxAttempts`, as often as they happen:
  `AttemptBoundIsReached`.
- The monitor's budgets count held-back announcements: `SpentOvercounts`.
- Two rules can reboot one box in one pass, and a reboot grace longer than the
  event retention is forgotten: `OnePassCanRebootTwice`, `LongGraceIsForgotten`.
  Exactly when neither can be: `OneBootAPassIff`, `RebootGraceHolds`.
- `wrapAsBundle` refuses a size of 0xffffffff or more, yet also fails on the last
  37 sizes below it, because the directory's offset has to fit: `WrapAsBundle`.
- A file that lists no manifest of its own reads as nothing once wrapped, even
  when it is itself a bundle: `WrappingIsTransparent`.
- `Stream` can return at the end of a file with lines still in the channel:
  `ReadEndedDelivers`, `LostAtMostTheQueueIff`.
- A follower starts a growing log over, repeating all of it, if the path cannot
  be opened for the moment of the fingerprint: `GrowingRestartsIff`.
- Rotom's history is meant never to disagree with the device row; it does when
  two listed boxes match one device and the second repeats the old row:
  `HistoryAgreesIff`.
- The sampler keeps one beat a slot only up to a sample interval of an hour, and
  not when the insert of the process rows throws after the device's row is in:
  `ExactIffWithinAnHour`, `FirstOfEachSlot`.

## Model

| member | source | states |
|---|---|---|
| `RolloutRuns.FleetWaitsForCanaries` | apps/hub/src/services/jobs.ts:264-301 | In every run, a job that is not a canary, of a rollout that has canaries, is dispatched only after an operator resumed the rollout, from PAUSED or SOAKING, or its canaries were all terminal at one moment with none FAILED and at least one SUCCESS and, when it soaks, `soakMinutes` have passed since |
| `RolloutRuns.GateHolds` | apps/hub/src/services/scheduler.ts:73-84 | The invariant behind it: a SOAKING rollout carries the moment its canaries passed, and a RUNNING one was released |
| `RolloutRuns.AttemptsBounded` | apps/hub/src/services/jobs.ts:81-137 | In every reachable state `attempt` is the number of successful dispatches since the last operator retry, at most `maxAttempts` plus the reconnect re-queues since then, and strictly less while QUEUED |
| `RolloutRuns.DispatchesAreFinite` | apps/hub/src/ws/deviceSocket.ts:349-375 | So between retries a job is dispatched at most `maxAttempts` times plus once for each reconnect that gave it back, which the code never checks against `maxAttempts` |
| `RolloutProgress.AttemptBoundIsReached` | apps/hub/src/ws/deviceSocket.ts:349-375 | That bound is reached, for every `maxAttempts` and every number of reconnects |
| `RolloutRuns.BackoffIsHonoured` | apps/hub/src/services/scheduler.ts:104-113 | A job put back by a failure or a stall is not dispatched before its backoff is over, unless an operator retried it or a reconnect cleared it |
| `RolloutRuns.HoldLasts` | apps/hub/src/services/jobs.ts:224-257 | The hold survives every other step: late reports, heartbeats, cancellations, further setbacks |
| `RolloutRuns.BackoffDoublesToCeiling` | apps/hub/src/services/jobs.ts:197-218 | The wait is the base after the first attempt, doubles with each, is capped at 1800 seconds and never shrinks as attempts grow |
| `RolloutRuns.TerminalUntilRetried` | apps/hub/src/services/jobs.ts:140-168 | No step but an operator retry changes a job in a terminal state |
| `RolloutRuns.CompletedMeansDone` | apps/hub/src/services/jobs.ts:264-301 | The step into COMPLETED leaves every job of the rollout terminal |
| `RolloutDone.StatusAfter` | apps/hub/src/services/jobs.ts:264-301 | The status of a rollout after any call of any run, decided by the call, the status before and what has become of the jobs: cancel, resume and the end of a soak are obeyed; COMPLETED, CANCELLED and PAUSED hold against everything else; otherwise, in that same call, a FAILED canary among finished ones parks it, the end of its last job completes it, and canaries that passed send it to soak or let it run; else it stays |
| `RolloutDone.LastJobCompletes` | apps/hub/src/services/jobs.ts:290-295 | In every run the call that writes a job of a rollout neither closed nor PAUSED, new or not, and leaves all its jobs terminal leaves it COMPLETED and stamped with that moment; from CANARY with a FAILED canary, PAUSED instead |
| `RolloutDone.JudgedAtOnce` | apps/hub/src/services/jobs.ts:277-288 | In every reachable state a rollout in CANARY whose canaries are all terminal has none FAILED and none SUCCESS |
| `RolloutDone.DoneIsNotOpen` | apps/hub/src/services/jobs.ts:290-295 | In every reachable state a rollout whose jobs are all terminal is COMPLETED, CANCELLED or PAUSED, or it is RUNNING and an operator resumed it from PAUSED with every job terminal |
| `RolloutDone.ResumedDoneStaysOpen` | apps/hub/src/services/rollouts.ts:149-160 | And that one stays RUNNING, through every call and at any time, until one of its jobs is retried or it is cancelled: nothing completes it |
| `RolloutRuns.PausedUntilOperator` | apps/hub/src/services/rollouts.ts:149-160 | A PAUSED rollout moves only by resume or cancel |
| `RolloutRuns.ClosedStays` | apps/hub/src/services/rollouts.ts:129-146 | A COMPLETED or CANCELLED rollout stays in those two statuses for the rest of the run |
| `RolloutRuns.ClosedNeverDispatches` | apps/hub/src/services/scheduler.ts:104-113 | And none of its jobs is ever dispatched again |
| `RolloutRuns.RetryInClosedRolloutIsStranded` | apps/hub/src/services/jobs.ts:140-168 | So a retry in a closed rollout queues the job and it is never dispatched |
| `RolloutProgress.QueuedCanGoIff` | apps/hub/src/services/jobs.ts:140-168 | And only there: a job in the queue can still be dispatched, in some continuation of its run, if and only if its rollout is neither COMPLETED nor CANCELLED and not limited to zero, whatever the backoff, from SOAKING and PAUSED, and from CANARY whatever became of the canaries |
| `RolloutProgress.ReadyIsSent` | apps/hub/src/services/scheduler.ts:138-252 | And without luck: in every run a listed candidate whose box is online, whose artifact is cached, whose window is open if it is AUTO, that is a canary if its rollout is in CANARY and whose message is taken is dispatched by that pass when the pass ends with room under the cap, its group's limit and its rollout's |
| `CandidateQuery.ReadyWithRoomIsSent` | apps/hub/src/services/scheduler.ts:99-253 | The listing itself follows for a queued job of an approved box, its wait over and its rollout in CANARY or RUNNING, when fewer than 500 other candidates may come before it, canaries first and then by `queuedAt`: then every pass that ends with room dispatches it |
| `CandidateQuery.ListedIfRoom` | apps/hub/src/services/scheduler.ts:104-122 | A candidate with fewer than 500 others that may come before it is in every list the query can return |
| `CandidateQuery.HiddenIfCrowded` | apps/hub/src/services/scheduler.ts:104-122 | A candidate with 500 strictly before it is in none |
| `CandidateQuery.DispatchedIsNotCrowded` | apps/hub/src/services/scheduler.ts:104-123 | So in no run does a pass dispatch a job that 500 candidates stand strictly before, whether or not any of those can go |
| `CandidateQuery.OnlineBoxStarves` | apps/hub/src/services/scheduler.ts:104-146 | A run that gets there, for every n from 499 and from any time: a rollout of n + 1 boxes whose canary is offline, then one for a single box. However online that box is, no pass, under any cap, at any time, changes anything while the canary stays offline |
| `RolloutProgress.DispatchedUnderLimit` | apps/hub/src/services/scheduler.ts:155-161 | A job of a rollout limited to zero is never dispatched |
| `RolloutProgress.LeaveCanary` | apps/hub/src/services/jobs.ts:264-301 | The fleet behind a canary that is over can be let go: a canary requeued, sent, and its success judged, while a job of the fleet waits |
| `RolloutProgress.StatusSound` | apps/hub/src/services/rollouts.ts:71-127 | In every reachable state no rollout is PENDING, and one in CANARY has a canary |
| `RolloutStuck.StuckUntilUnstuck` | apps/hub/src/services/jobs.ts:264-301 | A rollout in CANARY whose canaries are all terminal, none FAILED and none SUCCESS, with other jobs unfinished, stays so and dispatches nothing through every run until a canary is retried, the rollout is cancelled or its last jobs end |
| `RolloutStuck.CancelGetsStuckIff` | apps/hub/src/services/jobs.ts:179-191 | Cancelling the last canary in progress gets a rollout there exactly when no canary has a verdict and another job is unfinished |
| `RolloutStuck.OnlyCancelGetsStuck` | apps/hub/src/services/jobs.ts:264-301 | And that is the only way in: in every run, the call after which a rollout is stuck and before which it was not cancels a canary in progress |
| `RolloutStuck.CanaryIsUnfinished` | apps/hub/src/services/jobs.ts:264-301 | In every reachable state a rollout in CANARY has a job that is not terminal |
| `RolloutRuns.DispatchNeedsOpenRollout` | apps/hub/src/services/scheduler.ts:104-146 | A dispatch happens only in RUNNING, or in CANARY for a canary, after `nextAttemptAt`, and writes exactly the dispatched row |
| `RolloutCalls.DispatchedIsReady` | apps/hub/src/services/scheduler.ts:104-167 | In every run a job is dispatched only to a box that is online and approved and whose socket took the message, for a rollout with a cached artifact and, in AUTO, inside the install window, in RUNNING or as a canary in CANARY, its wait over |
| `RolloutCalls.DispatchEndsWithin` | apps/hub/src/services/scheduler.ts:99-161 | A pass that dispatches anything ends with at most the cap in flight, and the group it sent to with at most its limit |
| `RolloutCalls.PassWrites` | apps/hub/src/services/scheduler.ts:164-252 | A pass writes rows of queued candidates alone: as sent, one attempt up and stamped with the moment, or put back, queued with its attempt and without the stamps; and no rollout |
| `RolloutRuns.FlightEntries` | apps/hub/src/services/jobs.ts:50-62 | A job newly in flight was dispatched by that step or revived by a late report |
| `RolloutRuns.CapKeptWithoutLateReports` | apps/hub/src/services/scheduler.ts:99-102 | "At most the cap in flight" is kept by every step that is not a late report |
| `RolloutRuns.LateReportAddsOne` | apps/hub/src/services/jobs.ts:44-66 | And a report adds exactly one to the jobs in flight, unchecked, if and only if its job was back in the queue |
| `RolloutRuns.RowsStay` | apps/hub/src/services/rollouts.ts:71-105 | Rows keep their rollout, device and canary mark, and rollouts their settings, through every run |
| `RolloutSteps.StepFacts` | apps/hub/src/services/jobs.ts:44-301 | Every step changes each job row and each rollout row only in the ways listed for it, whatever the tables hold |
| `RolloutCalls.EndsIff` | apps/hub/src/services/jobs.ts:81-257 | How a job ends, in every run, and only so: SUCCESS by a good result, FAILED by a bad one or a stall with no attempts left, CANCELLED by its own cancellation or its rollout's, never SKIPPED; stamped with that moment |
| `RolloutCalls.SetBackExactly` | apps/hub/src/services/jobs.ts:197-257 | A failure or a stall with attempts left puts the row back in the queue with its attempt, held for exactly the backoff of that attempt, and not at all with a backoff of zero |
| `RolloutCalls.StalledIff` | apps/hub/src/services/jobs.ts:224-232 | The stall loop writes a job exactly when it is in one of the five phases of flight and its last beat, or without one its dispatch, is older than the timeout |
| `RolloutCalls.StalledIsOldBeat` | apps/hub/src/services/jobs.ts:225-232 | In every run only the first half of that query finds anything: a job in flight always has a beat |
| `RolloutCalls.HeardIsNotStalled` | apps/hub/src/services/jobs.ts:224-257 | So no stall loop of any run takes a job about which its box reported or beat within the timeout, whatever happened between |
| `RolloutCalls.RowsCoherent` | apps/hub/src/services/jobs.ts:44-191 | In every reachable state a job has `finishedAt` exactly when it is terminal, its progress is at most 100, 100 on SUCCESS and 0 in the queue, and in flight it has a beat |
| `RolloutCalls.ReportWrites` | apps/hub/src/services/jobs.ts:44-66 | What a report or a beat writes to the row, field by field, and that it writes nothing else |
| `RolloutCalls.GivenBackIff` | apps/hub/src/ws/deviceSocket.ts:349-375 | A reconnect gives back exactly the jobs its own box has in flight but for the one it says it is on, with their attempt and without a wait |
| `RolloutCalls.RetriedIff` | apps/hub/src/services/jobs.ts:140-168 | A retry is refused for exactly the jobs in flight; any other job starts over |
| `RolloutCalls.ResumeWrites` | apps/hub/src/services/rollouts.ts:149-160 | What an obeyed resume writes, `canaryPassedAt` kept or made; a refused one writes nothing |
| `RolloutCalls.CancelWrites` | apps/hub/src/services/rollouts.ts:129-146 | What a cancel of a rollout writes, and that it leaves every job of it terminal and every other job as it was |
| `DispatchModel.DispatchRespectsLimits` | apps/hub/src/services/scheduler.ts:99-253 | One pass ends with at most max(started with, cap) in flight, each limited group with at most max(its start, its limit), and each limited rollout gains at most its limit |
| `DispatchModel.DispatchIsGreedy` | apps/hub/src/services/scheduler.ts:138-252 | A candidate that was not sent is of an offline box, of the fleet behind a canary, of an AUTO rollout outside its window or of one without a cached artifact, was refused by its socket, or stands behind a limit still used up when the pass ends |
| `DispatchLimits.RefusalIsFree` | apps/hub/src/services/scheduler.ts:222-242 | A candidate whose socket refuses costs a pass nothing: without it the same jobs are sent in the same order, every counter and every other row ends the same, and its own row keeps its state, attempt and place |
| `DispatchModel.RolloutLimitIsPerPass` | apps/hub/src/services/scheduler.ts:136-136 | A rollout limited to one job that has two in flight after a pass: the count starts empty on every pass |
| `DispatchLimits.LimitHoldsIff` | apps/hub/src/services/scheduler.ts:136-156 | When the limit does bound what is in flight: over every fleet and every cap, a pass over these candidates leaves at most L of the rollout in flight if and only if A + min(L, n) <= L, with A in flight at the start and n candidates of the rollout whose status lets them go |
| `DispatchLimits.ClearPassFills` | apps/hub/src/services/scheduler.ts:138-252 | With nothing in the way a pass sends exactly min(L, n) of them |
| `DispatchLimits.GainIsOfThoseGoing` | apps/hub/src/services/scheduler.ts:138-162 | And never more than n, whatever is in the way |
| `DispatchModel.RecomputeIdle` | apps/hub/src/services/jobs.ts:264-301 | Recomputing a rollout right after one of its jobs was dispatched changes nothing |
| `DispatchModel.UnsentWereRefused` | apps/hub/src/services/scheduler.ts:138-162 | Whatever the loop passes over is still refused by its counters at the end |
| `RolloutModel.CanariesPreferOnline` | apps/hub/src/services/rollouts.ts:60-69 | Canaries are boxes of the selection that need the version, as many as asked for or all there are, and an offline one only when every online box that needs it is a canary too |
| `RolloutModel.Canaries` | apps/hub/src/services/rollouts.ts:62-69 | Canaries are among the selected boxes and need the version |
| `RolloutModel.NewJobs` | apps/hub/src/services/rollouts.ts:91-104 | One row for each selected box, in the order of the selection |
| `RolloutCalls.MadeIff` | apps/hub/src/services/rollouts.ts:31-53 | A rollout is made exactly from a READY version with artifact and digest and at least one box; otherwise nothing is written |
| `RolloutCalls.SkippedIff` | apps/hub/src/services/rollouts.ts:91-104 | A selected box is SKIPPED, and done at once, exactly when it has the version and that was asked for; every other waits in the queue from then, and no canary is skipped |
| `RolloutCalls.MadeAsAsked` | apps/hub/src/services/rollouts.ts:71-90 | The new rollout has the settings asked for and is in CANARY exactly when it has canaries |
| `HubService.Hub.RecomputeRollout` | apps/hub/src/services/jobs.ts:264-301 | The row-updating code leaves exactly the tables of the step whose outcome `RolloutDone.StatusAfter` states |
| `HubService.Hub.ApplyProgress` | apps/hub/src/services/jobs.ts:44-66 | As above, for a progress report: terminal jobs ignored, percent clamped, `startedAt` set once |
| `HubService.Hub.Heartbeat` | apps/hub/src/ws/deviceSocket.ts:250-262 | As above: only a job in flight has its `heartbeatAt` moved |
| `HubService.Hub.CompleteJob` | apps/hub/src/services/jobs.ts:81-137 | As above, for a result: success, back to the queue with backoff, or failed for good; then the rollout recomputed |
| `HubService.Hub.RetryJob` | apps/hub/src/services/jobs.ts:140-168 | As above, for an operator retry: attempts and backoff cleared, only from a terminal state or QUEUED |
| `HubService.Hub.CancelJob` | apps/hub/src/services/jobs.ts:179-191 | As above, for a cancel |
| `HubService.Hub.RequeueOne` | apps/hub/src/services/jobs.ts:234-253 | One turn of the stall loop |
| `HubService.Hub.RequeueStalled` | apps/hub/src/services/jobs.ts:224-257 | The loop over what the query returned, in the order it returned it, and how many rows that were |
| `HubService.Hub.ReconcileJobs` | apps/hub/src/ws/deviceSocket.ts:349-381 | Every other active job of the box goes back to the queue, and the agent is told to drop a job the hub does not have in flight |
| `HubService.Hub.CreateRollout` | apps/hub/src/services/rollouts.ts:31-127 | New rollout and rows, then recomputed; or one of three errors, tested in order, and nothing written: no such version, a version not READY with artifact and digest, an empty selection |
| `HubService.Hub.CancelRollout` | apps/hub/src/services/rollouts.ts:129-146 | Every unfinished job cancelled and the rollout with them |
| `HubService.Hub.ResumeRollout` | apps/hub/src/services/rollouts.ts:149-160 | Refused unless PAUSED or SOAKING; `canaryPassedAt` kept if there was one |
| `HubService.Hub.PromoteSoakingRollouts` | apps/hub/src/services/scheduler.ts:73-84 | Exactly the rollouts whose soak is over are released |
| `HubService.Hub.CountGroups` | apps/hub/src/services/scheduler.ts:125-134 | The counts the pass starts with are the jobs in flight of each group |
| `HubService.Hub.Send` | apps/hub/src/services/scheduler.ts:222-242 | The row as dispatched, or put back when the socket died in between |
| `HubService.Hub.MayGo` | apps/hub/src/services/scheduler.ts:139-162 | The tests at the head of the loop are those of the pass that `RolloutCalls.DispatchedIsReady` and `RolloutProgress.ReadyIsSent` pin down from both sides |
| `HubService.Hub.Offer` | apps/hub/src/services/scheduler.ts:138-252 | One turn of the dispatch loop |
| `HubService.Hub.DispatchQueued` | apps/hub/src/services/scheduler.ts:99-253 | The whole pass, counters, capacity, early exits and rows, as the pass those theorems are about |
| `HubService.ExhaustedPassIsDone` | apps/hub/src/services/scheduler.ts:138-139 | Once capacity is gone the rest of the candidates change nothing, so leaving the loop early is the same pass |
| `Tick.OnePassAtATime` | apps/hub/src/services/scheduler.ts:44-71 | Passes begun less passes ended is one exactly while the flag is up, and otherwise zero |
| `Tick.NoWakeUpIsLost` | apps/hub/src/services/scheduler.ts:44-71 | A tick asked for during a pass stays due, whatever happens, until another pass begins |
| `Tick.Scheduler.Begin` | apps/hub/src/services/scheduler.ts:44-49 | The flags as `tick` sets them on the way in |
| `Tick.Scheduler.End` | apps/hub/src/services/scheduler.ts:63-69 | And on the way out, failed or not |
| `MonitorRuns.BreakersHold` | apps/hub/src/services/monitor.ts:660-684 | In every run, in every closed window of an hour a box has at most `maxActionsPerDeviceHour` actions executed on it, and in every window of a day at most `maxRebootsPerDeviceDay` reboots, whatever was pruned |
| `MonitorRuns.RunsAreSafe` | apps/hub/src/services/monitor.ts:627-650 | Each executed action left its box within both ceilings at the moment it was executed |
| `MonitorRuns.PruningChangesNoBudget` | apps/hub/src/services/monitor.ts:1076-1085 | The budgets the next pass counts in the pruned table are those of the whole history |
| `MonitorRuns.SpentOvercounts` | apps/hub/src/services/monitor.ts:472-490 | A budget is exactly what was executed plus the announcements of held-back actions, which name their action too |
| `MonitorRuns.WindowsWithinCeilings` | apps/hub/src/services/monitor.ts:660-677 | Bounds at each action bound every window |
| `MonitorLadders.CooldownHolds` | apps/hub/src/services/monitor.ts:581-586 | Any two fires of one box and rule are at least the cooldown apart, even across a recovery |
| `MonitorLadders.RungsOnlyClimb` | apps/hub/src/services/monitor.ts:574-595 | Within one episode executed rungs never go down, only the top is executed twice, and each is the highest its failure count had earned |
| `MonitorLadders.DeferredIsNotSpent` | apps/hub/src/services/monitor.ts:597-639 | A rung held up by quiet hours, a missing socket or a tripped breaker is not marked spent, nothing is executed and no budget moves |
| `MonitorDeferrals.DeferredIsOwed` | apps/hub/src/services/monitor.ts:597-639 | What was deferred is owed: the ladder has earned a rung that it has not spent |
| `MonitorDeferrals.OwedUntilActed` | apps/hub/src/services/monitor.ts:566-651 | It stays owed through any passes in which no reading finds the fault gone, however often it is held up again, until a rung is executed |
| `MonitorDeferrals.OwedRungRuns` | apps/hub/src/services/monitor.ts:597-651 | And the next bad reading past the cooldown executes the highest rung earned by then, and spends for it, if and only if it is in the window, the box can be reached and both ceilings have room |
| `MonitorLadders.RunsClimb` | apps/hub/src/services/monitor.ts:566-651 | The ladder of a rule whose steps stay fixed obeys all that in every run |
| `MonitorLadders.RebootGraceHolds` | apps/hub/src/services/monitor.ts:451-467 | When the grace is no longer than events are kept, no pass that begins within it looks at a box whose reboot went through |
| `MonitorLadders.LongGraceIsForgotten` | apps/hub/src/services/monitor.ts:1076-1085 | And when it is longer there is, at any time, a run in which one does |
| `MonitorLadders.OnePassCanRebootTwice` | apps/hub/src/services/monitor.ts:424-430 | Within one pass two rules can reboot the same box, because the grace is looked up once; from any state without ladders, at any time |
| `MonitorBoots.OneBootAPassIff` | apps/hub/src/services/monitor.ts:424-430 | When they cannot: a pass boots a box at most once, for every state and every reading and equally for every state a run leads to, if and only if a ceiling is at most one or at most one of the rules chosen for the box can boot it |
| `MonitorBoots.CanBootMeans` | apps/hub/src/services/monitor.ts:574-580 | A rule can boot a box exactly when some count of failures from its threshold on earns a rung that does |
| `MonitorBoots.BoundedPass` | apps/hub/src/services/monitor.ts:660-684 | Rule by rule through the pass: at most one boot, and after it both budgets say so |
| `MonitorBoots.ReadyBoots` | apps/hub/src/services/monitor.ts:566-651 | A reading that brings a rule to the count of a boot, with no cooldown and both budgets below their ceilings, boots the box and spends from both |
| `MonitorBoots.TwoBootsInOnePass` | apps/hub/src/services/monitor.ts:424-430 | From any time on, for any two rules that can boot a box and ceilings of two or more, a run leads to a pass in which both do |
| `MonitorLadders.FirstFailureReboots` | apps/hub/src/services/monitor.ts:522-530 | A first failure under a rule whose only rung is a reboot executes it and spends from both budgets |
| `MonitorModel.OneRulePerFault` | apps/hub/src/services/monitor.ts:199-210 | The rules chosen for a box hold, for every fault, the rule that should watch it, its own group before the fleet, and never two |
| `MonitorModel.WatchesIff` | apps/hub/src/services/monitor.ts:199-210 | Of distinct rules one watches a box exactly when it is fleet-wide or of its group and stands before every other such rule for the same signal and package, the group's own before the fleet's and then as listed |
| `MonitorService.ChooseRules` | apps/hub/src/services/monitor.ts:199-210 | The loop that chooses them |
| `MonitorService.Monitor.Fire` | apps/hub/src/services/monitor.ts:770-790 | The ladder stamped and the event written together, an unchanged announcement not written twice |
| `MonitorService.Monitor.Recover` | apps/hub/src/services/monitor.ts:535-564 | The ladder reset and the recovery written, only when it had moved |
| `MonitorService.Monitor.Escalate` | apps/hub/src/services/monitor.ts:566-651 | One escalation: ladder, cooldown, quiet hours, socket, breakers, budgets, event |
| `MonitorService.Monitor.Read` | apps/hub/src/services/monitor.ts:504-530 | One reading of one rule |
| `MonitorService.Monitor.EvaluateDevice` | apps/hub/src/services/monitor.ts:494-532 | The rules of one box, one after the other, on one set of budgets |
| `MonitorService.Monitor.PruneEvents` | apps/hub/src/services/monitor.ts:1076-1085 | Hourly at most, never with a retention of zero |
| `MonitorService.Monitor.EvaluateFleet` | apps/hub/src/services/monitor.ts:405-467 | The whole pass: the switch, startup grace, heartbeat clock, the boxes it reads, events pruned; and on its own parameters, that it writes nothing about a box with an install running or with a reboot in the grace |
| `MonitorService.FleetIsRead` | apps/hub/src/services/monitor.ts:424-467 | Whom a pass reads: every listed box on which no install runs and of which no REBOOT or ROTOM_REBOOT that went through is still in the grace, under each rule chosen for its group, and nothing else |
| `MonitorService.ReadOnce` | apps/hub/src/services/monitor.ts:427-430 | And no box twice under one rule |
| `MonitorService.PassSpares` | apps/hub/src/services/monitor.ts:427-439 | About a box it does not read a pass writes nothing: no event, no stamp, no count |
| `MonitorReadings.ActsIff` | apps/hub/src/services/monitor.ts:566-684 | When an action goes out: exactly when the signal has been bad for the threshold, the rung is the highest earned, the cooldown is over, the rung is not spent or is the top, it is in the window and no mere notice, the box is online or the action rides Rotom's own socket, and neither ceiling is reached; it is recorded with its outcome and paid for, a boot twice over |
| `MonitorReadings.ReadingCounts` | apps/hub/src/services/monitor.ts:504-551 | What is counted: a bad reading one failure, a good one forgets them and the rungs they used up, an unknown one nothing; and nothing is written before the threshold |
| `MonitorReadings.AnnouncesIff` | apps/hub/src/services/monitor.ts:596-639 | What a rung that is reached does when it may not act: outside the window and for a mere notice it is announced, a held-back action by its name; without the socket nothing is written; past a ceiling the breaker is announced. An announcement takes the cooldown and no rung, and is written unless the newest event of the box and rule said the same without an action |
| `MonitorReadings.HeldBackIsRepeated` | apps/hub/src/services/monitor.ts:753-785 | So a held-back action, whose announcement names it, is announced again at every cooldown |
| `MonitorReadings.PrunedIff` | apps/hub/src/services/monitor.ts:1076-1085 | Hourly at most, and never with a retention of zero, exactly the events older than the retention go |
| `ConfigTemplate.AcceptedTemplatesKeepTheirStructure` | apps/web/src/actions/settings.ts:369-389 | An accepted template is one JSON document with holes in its strings; the checked text is that document with the stand-in in each hole, and what any box renders is the same document with the raw values of the names, which `ConfigNames.NamesStandForFields` states, in the same holes |
| `ConfigTemplate.AcceptedTemplatesRender` | apps/hub/src/services/deviceConfig.ts:179-209 | An accepted template is refused for a box exactly when the box lacks a value it uses, and the guard for rendered text that is not JSON never fires |
| `ConfigTemplate.RunFilled` | apps/hub/src/services/deviceConfig.ts:126-165 | Token by token: where the template lexes, the rendered text lexes to the same tokens with their holes filled |
| `ConfigTemplate.StandInLexes` | apps/web/src/actions/settings.ts:384-384 | A template that lexes with the stand-in in every hole has holes inside string literals only |
| `ConfigTemplate.EscapedReads` | apps/hub/src/services/deviceConfig.ts:174-176 | Inside a string literal an escaped value reads back as exactly its UTF-16 units: quotes, backslashes, controls and lone surrogates included |
| `ConfigTemplate.TablesAgree` | apps/hub/src/services/deviceConfig.ts:28-41 | The names the dashboard accepts and the names the hub can read are one list |
| `ConfigNames.NamesStandForFields` | apps/hub/src/services/deviceConfig.ts:28-41 | What each of the twelve placeholders stands for, from the template to the document: a template that is one JSON string with one placeholder renders, for any box, to the JSON string with the box's own field of that name in its place, unit for unit, and is refused when the box has none |
| `ConfigNames.OtherNamesAreUnknown` | apps/hub/src/services/deviceConfig.ts:133-143 | Any other name is refused as unknown |
| `ConfigNames.SameValuesSameText` | apps/hub/src/services/deviceConfig.ts:126-165 | Any template renders alike, or is refused alike, for two boxes that agree on the fields of the names it uses |
| `ConfigNames.RefusedIff` | apps/hub/src/services/deviceConfig.ts:149-165 | A template is refused for an unknown name when it has one, before any other reason; else for a missing value when the box lacks one; and rendered exactly when neither |
| `ConfigNames.PushedIff` | apps/hub/src/services/deviceConfig.ts:179-209 | A box gets no config exactly without a group, a path or a template; otherwise what is pushed is the rendered text, at that path, and it is JSON |
| `ConfigNames.AcceptedIff` | apps/web/src/actions/settings.ts:369-389 | The save-time check accepts a template exactly when every name in it is one of the twelve and it is a JSON document with its placeholders inside strings only |
| `ConfigTemplate.TokenIsTheMatch` | apps/web/src/actions/settings.ts:367-367 | The token found at a place is the only match of the expression there |
| `ConfigTemplate.RenderTemplate` | apps/hub/src/services/deviceConfig.ts:126-165 | The replace callback, pushing on two lists as it goes, computes the substitution that `ConfigNames.NamesStandForFields` follows to the document |
| `ConfigTemplate.Substitute` | apps/hub/src/services/deviceConfig.ts:133-148 | One call of the callback: an unknown name, a missing value, or the escaped value of the table |
| `Json.ParseFilled` | apps/hub/src/services/deviceConfig.ts:190-199 | A document parses the same whatever fills the holes of its strings |
| `Zip.ArchiveListed` | packages/apk/src/index.ts:77-122 | Of any archive of any members, with any extra fields and any trailing comment without a later end signature, exactly the members are listed in order, whether the directory lies in the searched tail or before it |
| `Zip.MemberRead` | packages/apk/src/index.ts:125-150 | Each member's bytes are found past its own local header and read exactly, however the local and central extra fields differ; unknown compression throws |
| `Zip.ArchiveRead` | packages/apk/src/index.ts:161-173 | The same through any reader of the archive, nested or not |
| `Zip.WindowServes` | packages/apk/src/index.ts:168-172 | A window onto a reader answers every read, in range or past the end, as the stretch of bytes itself would |
| `Zip.SameBytesSameListing` | packages/apk/src/index.ts:77-122 | Readers of the same bytes list the same entries |
| `Zip.SameBytesSameReading` | packages/apk/src/index.ts:125-150 | And read the same bytes of each |
| `Zip.EndRecordRead` | packages/apk/src/index.ts:82-94 | The search from the back stops at the true end record and reads its fields |
| `Zip.FindEndRecord` | packages/apk/src/index.ts:83-90 | The loop that searches |
| `Zip.WalkEntries` | packages/apk/src/index.ts:104-121 | The loop that collects entries, stopping at anything that is not a header |
| `Zip.ListEntries` | packages/apk/src/index.ts:77-122 | The two together, with the second read only when the directory is not in the tail |
| `ZipWriter.WrapAsBundle` | apps/hub/src/services/zip.ts:20-89 | Succeeds exactly when the local header, the name and the content together fit 32 bits, the name fits 16, and the year is before 2108; and then writes local header, content, central header and end record |
| `ZipWriter.BundleIsArchive` | apps/hub/src/services/zip.ts:32-87 | What it writes is an archive of one stored member, field by field as APPNOTE.TXT has it |
| `ZipWriter.BundleReadsBack` | apps/hub/src/services/zip.ts:20-89 | Which reads back as that one entry with exactly the content's bytes |
| `ZipWriter.TimestampFits` | apps/hub/src/services/zip.ts:102-111 | The two DOS fields decode to the moment they encode; the date fits its field exactly before 2108 |
| `ZipWriter.LocalHeader` | apps/hub/src/services/zip.ts:32-44 | The local header buffer, written field by field in place |
| `ZipWriter.CentralHeader` | apps/hub/src/services/zip.ts:46-64 | The central header buffer |
| `ZipWriter.EndHeader` | apps/hub/src/services/zip.ts:66-76 | The end record buffer |
| `ZipWriter.WriteUInt16LE` | apps/hub/src/services/zip.ts:34-38 | A 16-bit write extends what is written by two little-endian bytes |
| `ZipWriter.WriteUInt32LE` | apps/hub/src/services/zip.ts:39-41 | And a 32-bit write by four |
| `Manifest.ManifestParsed` | packages/apk/src/index.ts:243-307 | The parser inverts the format: with pools of either string form in any layout, lengths up to 0x7fff, maps and any other chunks before the element, the result is what the manifest says |
| `Manifest.ManifestYields` | packages/apk/src/index.ts:243-307 | So from a manifest of one pool, one map and an element with one attribute of each kind, among any others, the version code in decimal or hexadecimal form, come the package, the version name and the version code that were written |
| `ManifestEncoder.EncodedIsParsed` | packages/apk/src/index.ts:243-307 | Round trip: any pools, maps and other chunks, then an element with any attributes, written in the usual layout and read back, give the package and versions that were written |
| `ManifestEncoder.WrittenIsRead` | packages/apk/src/index.ts:243-307 | And literally: of one pool, one map and one attribute of each kind written so, exactly the three values come out |
| `ManifestEncoder.EncodedIsManifest` | packages/apk/src/index.ts:243-307 | What is written is a manifest of those items and attributes |
| `ManifestEncoder.PoolEncoded` | packages/apk/src/index.ts:192-198 | A pool as it is written is a pool of exactly those strings, in either form |
| `ManifestEncoder.MapEncoded` | packages/apk/src/index.ts:261-264 | And a resource map of those ids |
| `ManifestEncoder.ElementEncoded` | packages/apk/src/index.ts:265-280 | And an element of those attributes |
| `Manifest.LastDecides` | packages/apk/src/index.ts:282-295 | An attribute named by the pool, or by resource id, decides its field when no later one has the same role |
| `Manifest.SilentKeeps` | packages/apk/src/index.ts:289-295 | A field that no attribute has stays null |
| `Manifest.PoolRead` | packages/apk/src/index.ts:199-230 | A string pool yields exactly its strings, in order |
| `Manifest.Utf8Read` | packages/apk/src/index.ts:214-223 | The UTF-8 form, with its two lengths of one or two bytes each |
| `Manifest.Utf16Read` | packages/apk/src/index.ts:224-227 | The UTF-16 form |
| `Manifest.DecimalReads` | packages/apk/src/index.ts:287-287 | An integer value prints as its decimal digits, without a leading zero |
| `Manifest.ReadStringPool` | packages/apk/src/index.ts:199-230 | The loop over the offset table; one read out of range throws the pool away |
| `Manifest.ReadResourceIds` | packages/apk/src/index.ts:261-264 | The loop over the resource map |
| `Manifest.ReadElement` | packages/apk/src/index.ts:265-300 | The loop over the attributes, stopping where they would overrun |
| `Manifest.ParseManifest` | packages/apk/src/index.ts:243-307 | The chunk walk: stops at a size of zero or an overrun, ends on every input, and gives what the specification gives |
| `ApkInfo.WrappingIsTransparent` | packages/apk/src/index.ts:328-345 | Of the wrapped file the same is read as of the file, if its own directory lists a manifest, and otherwise nothing; what that is `PackageInfo.PackageSays` states |
| `ApkInfo.SameBytesSameManifest` | packages/apk/src/index.ts:336-341 | What is read of a package depends on its bytes only, not on how it is held |
| `ApkInfo.BaseIsPicked` | packages/apk/src/index.ts:310-321 | A bundle of one `base.apk` is looked into there |
| `PackageInfo.PackageSays` | packages/apk/src/index.ts:328-345 | A package, end to end: from the bytes of any archive that holds a manifest, stored or deflated and wherever it lies, what is read is the package, the version name and the version code written in it, named in its pool or by their resource ids |
| `PackageInfo.BundleSaysItsBase` | packages/apk/src/index.ts:310-345 | A bundle, end to end: among any number of splits the first that is `base.apk`, at the top or in a folder and in any case, stored or deflated, is opened, and what its own manifest says is read |
| `PackageInfo.FallbackIsPicked` | packages/apk/src/index.ts:310-321 | Without a base by name the first package whose name says nowhere that it is a split or a configuration is opened, without one of those the first package, and without a package nothing |
| `LogStream.NothingIsLostUnseen` | agent/internal/logs/logs.go:201-285 | At every moment of every interleaving, emitted, batch and channel are the scanned lines in order with exactly the dropped ones missing, every drop is reported or pending, and batch and channel keep their bounds |
| `LogStream.ClosedDeliversAll` | agent/internal/logs/logs.go:271-275 | A stream that ends on the closed channel delivered every kept line and reported every drop |
| `LogStream.DroppedIffFull` | agent/internal/logs/logs.go:231-239 | In every run a scanned line is dropped exactly when the channel holds 2000, and queued behind them otherwise |
| `LogStream.FlushedIffFull` | agent/internal/logs/logs.go:271-280 | And a line waits for a flush exactly when the batch holds 200: a frame with fewer comes of the ticker or of the end |
| `LogStream.CancelledReaderStops` | agent/internal/logs/logs.go:229-246 | Once the stream is cancelled its reader brings at most one more line to the channel |
| `LogStream.ReadEndedDelivers` | agent/internal/logs/logs.go:267-269 | A stream that takes the reader's error and returns, whatever happens in between, reported every drop and lost exactly what was queued at the moment it took the error: it delivered every kept line if and only if the channel was empty then |
| `LogStream.ErrorWasTaken` | agent/internal/logs/logs.go:261-270 | Every stream that returns so took the error at some step of its run |
| `LogStream.LastLinesMayBeLost` | agent/internal/logs/logs.go:261-284 | For any lines and any further ones up to the size of the channel: an interleaving that drops nothing, delivers the first and loses the others |
| `LogStream.LostAtMostTheQueueIff` | agent/internal/logs/logs.go:228-270 | So the end of a file can be lost, with nothing dropped, if and only if it is at most the 2000 lines of the channel |
| `LogStream.Stream.QueueOrDrop` | agent/internal/logs/logs.go:231-239 | The reader's select on a channel of 2000: the line queued, or on its way to be counted |
| `LogStream.Stream.CountDrop` | agent/internal/logs/logs.go:238-238 | The count of a drop |
| `LogStream.Stream.TakeLine` | agent/internal/logs/logs.go:271-279 | A line received: into the batch, or held while a full batch of 200 is flushed |
| `LogStream.Stream.TakeDrops` | agent/internal/logs/logs.go:252-253 | The swap of the drop count |
| `LogStream.Stream.EmitBatch` | agent/internal/logs/logs.go:254-259 | The rest of a flush: nothing sent when there is nothing to say, else the batch and the count, and a new batch |
| `LogStream.StepConserves` | agent/internal/logs/logs.go:225-284 | Each atomic step of either goroutine keeps lines and drops accounted for |
| `TailFollow.TailOffset` | agent/internal/sys/sys.go:236-270 | The backward scan in chunks of one reused buffer returns the start if there are at most that many newlines, else the place right after a newline with exactly that many following |
| `TailFollow.ScanChunk` | agent/internal/sys/sys.go:257-266 | The scan of one chunk |
| `TailFollow.StartIsUnique` | agent/internal/sys/sys.go:236-270 | There is only one such place |
| `TailFollow.GrowingFileIsFollowed` | agent/internal/sys/sys.go:275-378 | However a file grows between and during the calls, and whichever of the calls that look at it fail, what was handed on is exactly its bytes from that place to the offset, as long as no turn loses sight of it: the check is due, there is an opening to compare with, the path is there, cannot be opened for the comparison, and can right after |
| `TailFollow.StartsOverAtFirstLoss` | agent/internal/sys/sys.go:305-338 | So in every run up to the first turn that loses sight, and that turn starts over from the first byte |
| `TailFollow.GrowingRestartsIff` | agent/internal/sys/sys.go:305-338 | A growing file is started over exactly when sight is lost so, whichever other calls fail |
| `TailFollow.RewriteIsNoticed` | agent/internal/sys/sys.go:316-337 | A truncated, replaced or rewritten file is started over from its first byte unless its content passes for the old |
| `TailFollow.RewriteIsNoticedAfterShortRead` | agent/internal/sys/sys.go:344-356 | By the very next check, however soon, after a read of less than the 32 KiB buffer; the new file is then followed from its first byte and its own opening, of 64 bytes or all there are |
| `TailFollow.BacklogIsCheckedAtIntervals` | agent/internal/sys/sys.go:305-309 | While full buffers keep coming the file is looked at exactly when 200 milliseconds have passed |
| `TailFollow.OpeningIsTaken` | agent/internal/sys/sys.go:320-327 | A log too short for a whole opening when it was opened has it taken by the next check that finds it the same |
| `TailFollow.Follower.ReopenIfStale` | agent/internal/sys/sys.go:305-338 | The check, on the follower's own variables |
| `TailFollow.Follower.Turn` | agent/internal/sys/sys.go:344-359 | One turn of the loop: check, then read and hand on |
| `TailFollow.Follower.constructor` | agent/internal/sys/sys.go:279-284 | Where a follow begins |
| `Apkm.Select` | agent/internal/apkm/apkm.go:136-219 | No base or no split for the ABI are errors exactly when they are so; otherwise the list is sorted, repeats no name of a bundle without repeats, and holds what fits and what is forced in |
| `Apkm.SelectionIsExact` | agent/internal/apkm/apkm.go:136-219 | With distinct names it holds exactly: the first base, every unclassified split, every split of the ABI, the density pick, the wanted languages or else the first, and the forced extras |
| `Apkm.SelectionIsDetermined` | agent/internal/apkm/apkm.go:136-219 | So it is determined by the bundle and the box |
| `Apkm.PickDensity` | agent/internal/apkm/apkm.go:247-276 | The first of the nearest scaled splits, an unscaled one only when no scaled one is in range, none only when there is neither |
| `Apkm.OneDensitySomeLanguage` | agent/internal/apkm/apkm.go:183-209 | At most one density split, and at least one language if there are any |
| `Apkm.WrappedPackageIsSelected` | agent/internal/apkm/apkm.go:83-90 | A bundle of one `base.apk` installs it on every box |
| `ApkmNames.SplitIsWhatItSays` | agent/internal/apkm/apkm.go:83-134 | A name marked as of a configuration: the qualifier is what stands between the marker and `.apk`, and makes it the split of one of the six ABI spellings, of one of the nine densities, of a language when it has at most seven bytes, or of none |
| `ApkmNames.UnmarkedIsBaseOrFeature` | agent/internal/apkm/apkm.go:83-107 | One not so marked is a feature when it begins as a split and does not end as a base, and else the base |
| `ApkmNames.LanguageWithoutRegion` | agent/internal/apkm/apkm.go:237-245 | A region or script after the language is dropped, whichever of the two separators it comes after |
| `ApkmNames.InstalledIff` | agent/internal/apkm/apkm.go:166-209 | What is installed of a bundle with distinct names, split by split: an ABI split exactly when it is the box's ABI in either spelling; a density split only when no other is nearer in dots per inch; a language split when it is English or the box's, another only when no English one is there |
| `ApkmNames.NamedIsInstalled` | agent/internal/apkm/apkm.go:211-215 | And a split the job names, in whatever case, whatever it is |
| `Apkm.MatchingLanguages` | agent/internal/apkm/apkm.go:191-209 | The language loop, with its fallback |
| `Apkm.AddExtras` | agent/internal/apkm/apkm.go:211-215 | The loop that forces in named splits, once each |
| `Apkm.SortSorts` | agent/internal/apkm/apkm.go:217-217 | Sorting by name sorts |
| `RotomRuns.FlagDropsIff` | apps/hub/src/services/rotom.ts:628-666 | A connected flag drops exactly in an effective sync whose list leaves the row disconnected, or that misses the device right after another effective sync that missed it |
| `RotomRuns.DroppedBecauseListed` | apps/hub/src/services/rotom.ts:477-512 | And in the first case some listed box said so |
| `RotomRuns.MissesMean` | apps/hub/src/services/rotom.ts:631-642 | A miss is remembered exactly for the connected devices the last effective sync did not match |
| `RotomRuns.SilenceLeavesNoTrace` | apps/hub/src/services/rotom.ts:450-472 | A sync whose poll failed, that found Rotom off, or whose list is suspiciously empty leaves no trace in a run: rows, misses, slots and history are at every later moment as if it had not been |
| `RotomRuns.HistoryAgreesIff` | apps/hub/src/services/rotom.ts:559-604 | The history row says in every field what the device row says after the sync, if and only if the list does not end by repeating the old row after saying otherwise of the same device |
| `RotomRuns.OnceIsNotContradicted` | apps/hub/src/services/rotom.ts:477-512 | So it does for every device that one box alone is matched to |
| `RotomRuns.HistoryMayDisagree` | apps/hub/src/services/rotom.ts:607-615 | Two boxes matched to one device, the second repeating the row as it was: whatever the first said is what the row keeps, and the history says what the second did |
| `RotomRuns.WrittenRow` | apps/hub/src/services/rotom.ts:607-615 | What a list leaves in one row: the last thing it says that differs from the row as read at the start |
| `RotomRuns.SyncedOne` | apps/hub/src/services/rotom.ts:607-666 | One effective sync, one device: matched, what the list last says anew; missed, left as it was at the first miss and at the second disconnected with everything that depends on the connection cleared |
| `RotomRuns.RecordsIff` | apps/hub/src/services/rotom.ts:559-604 | History is written exactly by an effective sync with a retention of at least a day in a slot not written yet: one row for each device that was ever matched and for no other, and the slot is then taken |
| `Rotom.Service.SyncDevices` | apps/hub/src/services/rotom.ts:449-513 | The whole sync, on rows, misses, slot and history |
| `Rotom.Service.Sweep` | apps/hub/src/services/rotom.ts:628-666 | The sweep over the devices in any order |
| `Rotom.Service.Record` | apps/hub/src/services/rotom.ts:559-604 | One batch of history rows a slot |
| `Rotom.TurnsSweep` | apps/hub/src/services/rotom.ts:631-663 | The order of the devices does not matter to the sweep |
| `Sampler.FirstOfEachSlot` | apps/hub/src/services/metrics.ts:59-138 | Whenever beats arrive, inserts fail and the map is pruned, with an interval of at most an hour: what is stored is the first beat, of those whose row is stored, of each device in each slot that has one, if and only if no beat falls in the slot of an earlier one whose row was stored and whose processes' were not |
| `Sampler.UnclaimedAreStored` | apps/hub/src/services/metrics.ts:78-138 | In any case it is each beat whose slot no beat of the device has claimed for good |
| `Sampler.HalfStoredTwice` | apps/hub/src/services/metrics.ts:93-136 | Any two beats of one slot are both stored when the second insert of the first throws |
| `Sampler.ExactIffWithinAnHour` | apps/hub/src/services/metrics.ts:147-157 | For the runs without such a beat that holds, for every one of them, if and only if the sample interval is at most an hour |
| `Sampler.LongSlotStoresTwice` | apps/hub/src/services/metrics.ts:154-157 | Beyond it a prune forgets any slot while it is open and a second beat of it is stored |
| `Sampler.UngatedKeepsAll` | apps/hub/src/services/metrics.ts:67-72 | With an interval no longer than the heartbeat every beat is stored |
| `Sampler.NothingKept` | apps/hub/src/services/metrics.ts:61-61 | With a retention of nothing, nothing is stored |
| `Sampler.Metrics.RecordSample` | apps/hub/src/services/metrics.ts:59-138 | The gate, the claim before the inserts, and the claim withdrawn when either throws, the device's row stored or not |
| `Sampler.Metrics.PruneMetrics` | apps/hub/src/services/metrics.ts:147-157 | The loop that drops stale claims, hourly or when forced |
| `Sampler.SlotIsFloor` | apps/hub/src/services/metrics.ts:86-86 | A slot is the floor of the division |

## Left out

- HubService: event texts, `lastError`, install modes, hooks, download tokens and the pushed config file of a dispatched job are not modelled.
- HubService.Hub.RetryJob: `retryFailedJobs` is a sequence of such calls and is not modelled apart from them.
- RolloutModel.CanariesPreferOnline: the order of the selection by name is given with the selection; `localeCompare` and database collation are not modelled.
- RolloutRuns: deleting a device or a rollout, which removes rows outside these services, is not a step of the runs.
- DispatchModel.DispatchRespectsLimits: the maintenance window is an input to the pass, not computed from a clock.
- MonitorService.Monitor.Read: probes, readings and `readSignal` are an oracle for whether the signal is good, bad or unknown; sending an action is one for whether it worked.
- MonitorLadders.RunsClimb: editing a rule's steps in the middle of a run, which resets its stored ladders, is not modelled.
- MonitorService.Monitor.EvaluateFleet: a device whose evaluation throws is skipped by the code. What an action can throw is caught where it is run, so only a database call that fails gets that far, and in the model those succeed.
- Json.ParseFilled: numbers keep their digits and objects keep repeated keys in order, where JavaScript rounds the first and merges the second.
- ConfigTemplate.AcceptedTemplatesRender: the messages' wording, the config path check and the group form around the template are not modelled.
- Zip.MemberRead: DEFLATE is a parameter that may throw; text decoding is a parameter of every function that needs it; checksums are neither read by the code nor by the model.
- ZipWriter.WrapAsBundle: the file is taken as one value; its size, checksum and bytes are read at three moments by the code. A value that does not fit its field makes the write throw, which the model tests just before the write.
- Manifest.ManifestParsed: strings of 0x8000 units or more, which the format encodes in a way the parser does not read, are outside the statement, though the parser itself is modelled on them.
- ApkInfo.BaseIsPicked: names are matched with ASCII case folding, and the Kelvin sign where the source lower-cases; no other character folds to the letters looked for.
- LogStream: interleavings are sequences of atomic steps, each proved of the code that takes it; scanner limits, the ticker's period and process teardown are not modelled.
- TailFollow.TailOffset: the file is taken as it was when its size was read; a truncation during the scan and read errors are not modelled.
- TailFollow.Follower.Turn: polling intervals, cancellation and a reader that goes away end the loop and are not modelled.
- Apkm.Select: `sort.Slice` is modelled as an insertion sort and only its promise is used, so equal names may come in either order; lower-casing and byte length of names are parameters.
- Apkm: listing and extracting the bundle's files are not modelled.
- Rotom.Service.SyncDevices: matching a listed box to a device and summarising its workers come with the list; the cache behind the workers page and bus events are not modelled.
- Sampler.Metrics.RecordSample: a beat is one step, its awaits included, so no other beat of the box arrives between its claim and its withdrawal; the process rows themselves are not kept, and `createMany` is taken to store all of them or none.
- Sampler.Metrics.PruneMetrics: deleting old rows in batches is not modelled; the stored samples are those ever stored.
- Enrollment, authentication, artifact downloads, the installer, self-update, device metrics, Discord posting and the user interface are plumbing or simple forms and are not modelled.

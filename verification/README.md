# pv-api: verified model of the portfolio service

pv-api keeps investment portfolios, backtests them, and serves figures read from
the snapshot that a backtest leaves behind. This project models the parts of it
whose correctness spans several functions or several concurrent actors, and
proves what they promise. Amounts are real numbers, dates are calendar dates or
integers, and run ids are strictly increasing numbers (they are uuidv7 values).

* **Backtest runs** (`RunDb`, `RunProtocol`, `RunOwnership`, `RunHistory`,
  `SnapshotSafety`, `DailySchedule`, `RunTheorems`, `PortfolioLife`, `RunStore`,
  `RunRefinement`).
  The tables are a value and each SQL transaction is one step. A transition
  system of 33 steps interleaves submissions, the bounded channel, the workers,
  prunes, deletes and the directory removal that follows them, changes of
  retention and end date, upgrades, the scheduler's claims, the orphan sweep
  (walk, two queries, one removal at a time), crashes and restarts. Store writes
  may fail, a directory removal may stop half way, and a startup sweep may fail
  (the server only logs that, cmd/server.go:378). The theorems in `RunTheorems`
  hold in every state of every execution. `RunStore` has the same operations as
  objects that update tables and files in place, and `RunRefinement` shows that
  what those do undisturbed is an execution of the protocol.
* **Scheduler** (`ScheduledClaims`, `RepeatedClaims`, `Scheduler`). The dispatch loop
  runs inside an execution of the protocol: its claims and submissions are steps.
* **Auto-resubmitting reads** (`ReadRetry`, `RetryLimits`): what the cap on automatic
  retries refuses, and what it leaves to a read.
* **Progress hub** (`ProgressHub`, `Broadcaster`). What every subscriber receives
  over any sequence of calls, and the ring, the in-place subscriber slice and the
  line parser that implement it.
* **Accounting** (`HoldingsTimeline`, `PeriodWindows`, `HoldingsAttribution`,
  `HoldingsImpact`, `Drawdowns`, `Ledger`, with `Sums`, `Rounding`, `StableSort`).
* **Strategy upgrade** (`StrategyUpgrade`) and the **unsubscribe token**
  (`UnsubscribeToken`).

`dafny verify dfyconfig.toml` checks everything.

## Where the code falls short of its comments

* portfolio/handler.go:647-651 says that reads resubmit a failing backtest at most
  twice. A read loads the portfolio, lists the runs and submits in three steps,
  and a run can finish in between, so the cap can be passed
  (`ReadRetry.OvertakenReadsUnbounded`). When a read passes it is exact: one that
  lists the runs after two failures creates another if and only if it had loaded
  the portfolio as not failed and nothing is in flight when it submits
  (`ReadRetry.PassesCapIff`), and after a failure it loads it as failed if and only
  if no run is running at that moment (`ReadRetry.LoadedFailedIff`). Even without
  such races the cap holds if and only if the portfolio retains at least two runs
  (`RetryLimits.CapIffTwoRetained`); one is allowed (portfolio/validate.go:39-48).
* scheduler/scheduler.go:108-112 says that the dispatch loop ends at the next fire
  and does not spin. The deadline is looked at only after a full queue, and a run
  that ends before it reaches 'running' leaves its portfolio due at once: for
  every k there is an execution, all of it at one instant, in which one portfolio
  is claimed and submitted k times (`RepeatedClaims.ClaimedAnyNumberOfTimes`), and
  one in which the loop never ends (`RepeatedClaims.SpinsForever`). When that can
  happen is exact (`ScheduledClaims.ClaimableAgainIff`), and so is when the loop
  ends (`Scheduler.EndsIffLimited`).
* snapshot/holdings_impact.go:42-44 calls a failed residual check an accounting bug.
  On correct books it fails for every period with net deposits or withdrawals
  beyond the tolerance (`HoldingsImpact.RefusedOnExternalFlow`, and
  `HoldingsImpact.DepositRefused` for one such portfolio).
* portfolio/db.go:483-515 writes an upgrade without looking at the version it was
  computed from, so an upgrade that another one of the same portfolio overtook can
  undo what that one stored (`StrategyUpgrade.OvertakenUpgradeLoses`). What survives
  is exact (`StrategyUpgrade.WriteSurvivesIff`).

## Model

| member | source | states |
|---|---|---|
| RunTheorems.OneInFlight | portfolio/runs.go:31-79 | In every reachable state a portfolio has at most one queued or running run, a portfolio marked running has a running run, and a worker that loads its portfolio never finds it running, so the already-running branch is dead. |
| RunTheorems.OneOwner | backtest/dispatcher.go:144-189 | Every in-flight row is held by exactly one submitter, channel slot or worker, unless the write that should have settled it was lost. |
| RunTheorems.ExactlyOnce | backtest/dispatcher.go:144-189 | Every submitted run is pending, rejected, lost in a crash, or executed, exactly one of these, and executed at most once; rejected and lost ones have a failed row, no row, or a lost write. |
| RunTheorems.PoolBound | backtest/dispatcher.go:115-142 | At most MaxConcurrency runs execute at a time, and the channel holds at most four times as many tasks. |
| RunTheorems.TerminalForever | backtest/run.go:151-169 | Between any two states of an execution a terminal row does not change, and a deleted row does not return. |
| RunTheorems.RemovedFilesAreOrphans | backtest/orphan_sweep.go:57-98 | No step of any execution, be it of the sweep, of a prune or of the cleanup after a DELETE request, removes a snapshot file while its run row and its portfolio row both exist. |
| RunTheorems.SnapshotAvailable | backtest/run.go:117-156 | Every surviving successful run has its file on disk; the active snapshot of a ready portfolio is there, or its row was pruned when at least run_retention newer rows existed. |
| RunTheorems.ScheduledOnceADay | portfolio/db.go:527-561 | No two scheduled rows of a portfolio started on one day; what is claimed and not yet submitted has no scheduled run in flight or started today. |
| PortfolioLife.StartShows | portfolio/db.go:257-276 | The start of a run leaves row and portfolio running, the row since that moment. |
| PortfolioLife.CompletionShows | portfolio/db.go:281-318 | The completion of a run leaves its portfolio ready, with the snapshot of that run and the present as its last run. |
| PortfolioLife.ReadyAfterSuccess | portfolio/db.go:281-318 | In every execution a portfolio whose run completed is ready in every later state until a run of it starts or fails or it is upgraded or deleted. |
| PortfolioLife.EndDateStopsSchedule | portfolio/db.go:527-561 | In every execution, once a portfolio has an end date and is not among the claimed, no later claim contains it and no scheduled run of it is created. |
| PortfolioLife.UpgradeAwaitsRun | portfolio/db.go:483-515 | In every execution the scheduler does not claim an upgraded portfolio until a run of it settles. |
| RunOwnership.StepKeeps | backtest/run.go:91-169 | Every step keeps the ownership invariant that ties rows, channel, workers and lost writes together. |
| RunHistory.StepLogged | backtest/dispatcher.go:144-160 | Every step keeps the accounting of rejected, lost and executed runs. |
| SnapshotSafety.StepSafe | backtest/orphan_sweep.go:57-145 | Every step keeps the invariant that ties rows, files and what the sweep has read so far. |
| SnapshotSafety.ReapRemovesOrphans | backtest/orphan_sweep.go:57-98 | One removal by the sweep takes only files whose run or portfolio row is gone at that moment, although the sweep queried earlier. |
| DailySchedule.StepDaily | portfolio/db.go:527-561 | Every step keeps the once-a-day invariant, also with claims outstanding. |
| RunDb.PruneSparesInFlight | portfolio/db.go:424-475 | An in-flight run has its portfolio's newest id, so with retention of at least 1 a prune never deletes it. |
| RunDb.PruneExact | portfolio/db.go:424-475 | A prune leaves exactly min(n, retention) rows, deletes precisely those with retention or more newer rows, and touches no other portfolio. |
| RunDb.RetentionAtPrune | portfolio/db.go:172-187 | A change of retention deletes nothing by itself, and the next prune leaves min(n, the new retention) rows. |
| RunDb.DeleteExact | portfolio/db.go:191-203 | Deleting a portfolio takes its runs with it and leaves every other row as it is. |
| RunDb.CreateRunKeeps | portfolio/runs.go:68-79 | Creating a run under the partial unique index keeps the table invariant. |
| RunDb.MarkRunningKeeps | portfolio/db.go:257-276 | Marking a held run running keeps it. |
| RunDb.MarkReadyKeeps | portfolio/db.go:281-318 | Completing a held run keeps it. |
| RunDb.MarkFailedKeeps | portfolio/db.go:322-344 | Failing a held run keeps it. |
| RunDb.MarkAllKeeps | portfolio/db.go:393-419 | The startup sweep keeps it and leaves nothing in flight. |
| RunDb.MarkAllExact | portfolio/db.go:393-419 | The startup sweep fails exactly the running portfolios and the queued and running runs, and changes no other column. |
| RunStore.Store.CreateRun | portfolio/runs.go:68-79 | Inserts a queued row with a new id, or reports an unknown portfolio or a run in flight and changes nothing. |
| RunStore.Store.UpdateRunFailed | portfolio/runs.go:95-101 | Fails one row and nothing else. |
| RunStore.Store.MarkRunningTx | portfolio/db.go:257-276 | Both rows become running in one step and the start is stamped. |
| RunStore.Store.MarkReadyTx | portfolio/db.go:281-318 | Portfolio ready and stamped, run successful, both with the snapshot path. |
| RunStore.Store.MarkFailedTx | portfolio/db.go:322-344 | Both rows failed. |
| RunStore.Store.MarkAllRunningAsFailed | portfolio/db.go:393-419 | All running portfolios and in-flight runs failed, with the two counts. |
| RunStore.Store.PruneRuns | portfolio/db.go:424-475 | Deletes the expired rows and returns exactly the snapshot paths of the rows that went. |
| RunStore.Store.ClaimDue | portfolio/db.go:527-561 | Distinct portfolios without end date, ready or failed, with no run queued or running and no scheduled run started today; those never run first and then by oldest last run; at most a batch, all of them if there are fewer, and none left out that ran earlier than one taken. |
| RunStore.DueIffClaimable | portfolio/db.go:527-561 | The WHERE clause as an if-and-only-if on the portfolio row and its run rows. |
| RunStore.Dispatcher.Submit | backtest/dispatcher.go:144-160 | Refused with nothing changed, or row and task added, or channel full and the row failed again unless that write fails. |
| RunStore.SubmitEffect | backtest/dispatcher.go:144-160 | A created run is one more row, queued, with the given trigger and not started; it is the only one in flight for its portfolio and failing its row frees the portfolio; a refused submission is for one that is gone or busy. |
| RunStore.Orchestrator.Run | backtest/run.go:91-169 | The effect on tables and files for every outcome of its external calls and of its store writes. |
| RunStore.RunSettles | backtest/run.go:91-169 | Whichever calls and writes fail, an undisturbed run leaves valid tables and its own row. It reports success exactly when every call and write succeeded and exactly with a successful row; then its file is there and active and the portfolio is ready and was last run now. Otherwise portfolio and row are failed, or the row is in flight exactly when the failure could not be written. |
| RunStore.RunTouches | backtest/run.go:91-169 | A run leaves other portfolios and their runs alone, writes no file but its own, and removes only the snapshots of rows of its portfolio that it deletes. |
| RunStore.BusyPortfolioRefused | backtest/run.go:98-102 | A run of a portfolio that is already running fails its own row and changes nothing else. |
| RunStore.Orchestrator.Fail | backtest/run.go:253-274 | Both rows failed unless that write fails, then the prune. |
| RunStore.Orchestrator.Prune | backtest/run.go:234-248 | Removes exactly the files of the rows that PruneRuns deleted, apart from those whose removal fails; nothing happens when PruneRuns fails. |
| RunStore.Orchestrator.CollectOrphanCandidates | backtest/orphan_sweep.go:100-145 | One candidate per directory and per snapshot file in one, each once. |
| RunStore.Orchestrator.SweepOrphans | backtest/orphan_sweep.go:57-98 | A directory goes exactly when its portfolio has no row and its removal succeeds; a file exactly when its directory or its own removal takes it for want of a row; the count is the number of successful removals. |
| RunStore.CleanSweep | backtest/orphan_sweep.go:57-98 | When no removal fails, exactly the directories and files of existing portfolios and runs are left. |
| RunRefinement.SubmitIsSteps | backtest/dispatcher.go:144-160 | An undisturbed submission, manual or of a claimed portfolio, refused, accepted or turned away, with or without a lost write, is an execution of protocol steps with the tables and channel of Dispatcher.Submit. |
| RunRefinement.RunIsSteps | backtest/run.go:91-169 | For every outcome of its calls an undisturbed Run is an execution of the worker's steps that ends with the tables and files of RunEffect. |
| RunRefinement.SweepIsSteps | backtest/orphan_sweep.go:57-145 | For all removals that fail an undisturbed sweep is an execution of its steps that ends with the directories and files of SweepOrphans. |
| ReadRetry.PickInflight | portfolio/handler.go:717-724 | The first queued or running entry, or none if there is none. |
| ReadRetry.ConsecutiveFailedRuns | portfolio/handler.go:730-739 | The length of the failed head of the list. |
| ReadRetry.RespondRecalculating | portfolio/handler.go:653-679 | Follows the first run in flight if there is one; otherwise refuses exactly when the loaded status and the first two listed runs are failed; otherwise submits. |
| ReadRetry.TwoFailuresListed | portfolio/runs.go:103-124 | After two started failures with nothing in flight, every order ListRuns may give begins with two failed rows, also after prunes and rows that never started. |
| ReadRetry.AtMostTwoTimelyFailures | portfolio/handler.go:653-701 | With retention kept at 2 or more, over every interleaving, at most two runs submitted by reads that no completion overtook have started and failed since the last success. |
| ReadRetry.DecisionPastTwo | portfolio/handler.go:658-674 | After two started failures and with nothing in flight a read that lists the runs is refused if and only if it had loaded the portfolio as failed, whatever order the list has. |
| ReadRetry.LoadedFailedIff | portfolio/db.go:257-344 | After a started failure a read loads the portfolio as failed if and only if none of its runs is running. |
| ReadRetry.PassesCapIff | portfolio/handler.go:653-701 | A read that lists the runs after two started failures with nothing in flight creates a run if and only if it had loaded the portfolio as not failed and nothing is in flight when it submits, whatever happens in between. |
| ReadRetry.RefusedAfterTwo | portfolio/handler.go:653-679 | So after two started failures every read that begins with nothing in flight is refused. |
| ReadRetry.PastTwoOnlyIfOvertaken | portfolio/handler.go:653-679 | A read still about to submit after two started failures began before some started run finished. |
| ReadRetry.OvertakenReadsUnbounded | portfolio/handler.go:653-701 | For every k some interleaving has k runs submitted by reads start and fail with no success between. |
| RetryLimits.FreeRetry | portfolio/handler.go:647-674 | The free retry, for every retention and over every interleaving: while at most one started run has failed since the last success and nothing is in flight, a read that lists the runs submits, whatever status it loaded, unless a run that never started is at the head of the list. |
| RetryLimits.FreeRetryRuns | portfolio/handler.go:653-701 | Such a read, undisturbed, creates a queued run. |
| RetryLimits.ReadSeesReady | portfolio/db.go:281-318 | A read that loads the portfolio after a success, with no run started or failed since, loads it as ready. |
| RetryLimits.CapIffTwoRetained | portfolio/handler.go:647-674 | The cap of two failures holds in all executions if and only if the portfolio retains at least two runs. |
| RetryLimits.UnboundedAtOne | portfolio/db.go:424-475 | With a retention of one, for every k an execution in which k reads one after the other submit a run that fails. |
| Scheduler.SubmitBatch | scheduler/scheduler.go:124-136 | Counts the accepted submissions and notices a full queue. |
| ScheduledClaims.NotDueAgain | portfolio/db.go:527-561 | In every execution a portfolio with a scheduled run queued is not due again that day, unless that run ended unstarted or its row was deleted. |
| ScheduledClaims.ClaimableAgainIff | portfolio/db.go:527-561 | An idle, open-ended, ready or failed portfolio can be claimed again on the day of a claim exactly when every scheduled run created since, and not deleted, ended unstarted. |
| RepeatedClaims.ClaimedAnyNumberOfTimes | scheduler/scheduler.go:113-157 | For every k an execution at one instant in which the scheduler claims and submits one portfolio k times, each run failing while its portfolio is loaded. |
| RepeatedClaims.SpinsForever | scheduler/scheduler.go:113-157 | Whatever the deadline, an endless execution at one instant in which every round of the loop goes on to the next, so that no limit holds. |
| Scheduler.BusyRoundsBounded | scheduler/scheduler.go:113-157 | In every execution the rounds that dispatch without a full queue number at most the pairs of a day and a portfolio that existed at a claim of that day, plus the rounds of which a run ended unstarted or lost its row. |
| Scheduler.BusyRoundsOfOneDay | scheduler/scheduler.go:113-157 | With no run wasted and all claims on one day there are at most as many such rounds as portfolios that existed at some claim. |
| Scheduler.EndsIffLimited | scheduler/scheduler.go:113-157 | The loop ends if and only if that bound stays limited while it runs. |
| Scheduler.RunRound | scheduler/scheduler.go:114-156 | One round ends with the verdict of Round: claim, submissions, and the wait when the queue was full. |
| Scheduler.RoundMeans | scheduler/scheduler.go:114-156 | A round goes on exactly when it claimed something and waited on a full queue to before the deadline, or dispatched a run with no full queue; each reason to stop has its exact condition on what was claimed and answered. |
| Scheduler.DispatchDue | scheduler/scheduler.go:113-157 | Terminates under that condition. Every round before the last claimed something and either waited on a full queue to before the deadline or dispatched a run; the last failed to claim, found nothing due (and then nothing is due), was cancelled, passed the deadline after a wait, or had every submission refused, and the reason says which. |
| Scheduler.MostRecentFire | scheduler/scheduler.go:161-173 | The latest fire in the look-back window, or none if the window has none. |
| ProgressHub.Delivery | progress/hub.go:106-226 | After any sequence of calls a subscriber has been sent a gap-free stretch of the history from min(20, n) before it joined, then at most the terminal event, missing only if it is live, was dropped, unsubscribed, or was full at completion. |
| ProgressHub.PromptSubscriber | progress/hub.go:118-128 | A subscriber that never lets 32 events wait and does not leave is never dropped: it has every message from min(20, n) before it joined, and the terminal event last. |
| ProgressHub.PublishExact | progress/hub.go:106-129 | Publishing reaches every subscriber with fewer than 32 unread events and closes exactly the others. |
| ProgressHub.CompleteExact | progress/hub.go:208-226 | Completion closes every subscriber, after the terminal event where there is room; a second one changes nothing. |
| Broadcaster.BroadcasterDelivers | progress/hub.go:106-226 | The same of every channel of the object with its ring and its in-place subscriber slice. |
| ProgressHub.Exec | progress/hub.go:106-226 | Any sequence of calls is defined and keeps the invariant: no send on or close of a closed channel, no blocking send. |
| ProgressHub.AliveIsFilter | progress/hub.go:118-128 | The survivors of a fan-out are the subscribers with room, each once. |
| Broadcaster.RingPush | progress/hub.go:106-116 | Writing one slot keeps the ring equal to the last min(20, n) messages. |
| Broadcaster.RunBroadcaster.Remember | progress/hub.go:106-116 | The ring method appends to the history it represents. |
| Broadcaster.RunBroadcaster.FanOutInPlace | progress/hub.go:118-128 | The in-place compaction of the subscriber slice equals the functional filter, and every channel gets the event or is closed. |
| Broadcaster.RunBroadcaster.Publish | progress/hub.go:106-129 | Publish on the object is publish on the abstract hub. |
| Broadcaster.RunBroadcaster.Latest | progress/hub.go:145-153 | The newest message published, if any. |
| Broadcaster.RunBroadcaster.ReplayChannel | progress/hub.go:174-178 | Replays exactly the ring's messages in order without blocking. |
| Broadcaster.RunBroadcaster.Subscribe | progress/hub.go:162-194 | A new channel with the replay, or the terminal event of a finished run. |
| Broadcaster.RunBroadcaster.Unsubscribe | progress/hub.go:182-192 | Removes and closes one channel, and does nothing when repeated. |
| Broadcaster.RunBroadcaster.Complete | progress/hub.go:208-226 | Sends the terminal event where there is room and closes all; a second call does nothing. |
| Broadcaster.LineWriter.Write | progress/hub.go:245-268 | What it publishes corresponds one to one, in order, to the newline-ended lines of buffer and input that are not blank and decode to type progress, each message the decoding of its line; what follows the last newline is kept. |
| Broadcaster.TranscriptUnique | progress/hub.go:245-268 | That correspondence determines the messages. |
| Broadcaster.ChunkingIrrelevant | progress/hub.go:245-268 | However the bytes are cut into writes, the messages are those of the lines of the whole stream, and the unfinished line is that of the whole stream. |
| HoldingsTimeline.PostBalances | snapshot/holdings_impact.go:238-266 | Double entry: a transaction changes the sum of all flows by its external amount only. |
| HoldingsTimeline.FlowsBalance | snapshot/holdings_impact.go:209-232 | A date's flows add up to its deposits less its withdrawals. |
| HoldingsTimeline.FlowIsLegs | snapshot/holdings_impact.go:238-266 | A holding's flow is the sum of its legs, also for the cash bucket itself. |
| HoldingsTimeline.PositionsAreLast | snapshot/holdings_impact.go:180-205 | A date has a holding exactly when some position row has that date and holding, with the market value and the quantity of the last such row. |
| HoldingsTimeline.EquityIsLast | snapshot/holdings_impact.go:142-176 | The equity of a date is that of its last row. |
| HoldingsTimeline.TenSharesLoaded | snapshot/holdings_impact.go:180-205 | Ten shares worth 1500 are loaded with that value and that quantity. |
| HoldingsTimeline.Loader.ApplyTxFlow | snapshot/holdings_impact.go:238-266 | Posts one transaction to the day of its date. |
| HoldingsTimeline.Loader.MergePositions | snapshot/holdings_impact.go:180-205 | Every day gets the positions of its date; all rows are counted. |
| HoldingsTimeline.Loader.MergeTransactions | snapshot/holdings_impact.go:209-232 | Every day gets the flows of its date. |
| HoldingsTimeline.Loader.Load | snapshot/holdings_impact.go:117-139 | One day per equity row, and each holds, in terms of the rows alone, the last equity of its date, the last value and quantity of each holding with a row of that date and no other holding, and the legs of its transactions; an error for a date that does not parse; not found without positions. |
| PeriodWindows.SnapForward | snapshot/holdings_impact.go:316-323 | The first day not before the wanted date, or -1. |
| PeriodWindows.BuildPeriodWindows | snapshot/holdings_impact.go:271-312 | Exactly the periods that apply, in canonical order: since inception, the last five, three and one years where the history reaches back that far, and since 1 January, each from the first funded day on or after that date, if before the last. |
| PeriodWindows.AnniversaryIsYearsBack | snapshot/holdings_impact.go:275-286 | A period of n years begins on the same calendar day n years earlier, or the day after 28 February where that year lacks it. |
| PeriodWindows.WindowsSound | snapshot/holdings_impact.go:271-312 | Every window starts before it ends, on a day with nonzero equity, and starts do not decrease. |
| PeriodWindows.DayNumberGrows | snapshot/holdings_impact.go:377-381 | Day numbers, of which the length of a period is the difference, follow the calendar. |
| PeriodWindows.NextDay | snapshot/holdings_impact.go:377-381 | The day after a date has the next number, so a difference of numbers is a number of days. |
| HoldingsAttribution.ResidualIdentity | snapshot/holdings_impact.go:331-346 | On every timeline the residual is the change of unexplained equity, plus net external flow, minus flows of holdings without a position. |
| HoldingsAttribution.GuardTestsExternalFlow | snapshot/holdings_impact.go:343-346 | When positions account for the equity at both ends and for all flows, the guard passes exactly when net external flow is within tolerance. |
| HoldingsAttribution.ExternalByDates | snapshot/holdings_impact.go:427-432 | On every timeline that net flow is deposits less withdrawals dated after the opening day, up to the closing day, less those on dates without an equity row, plus those counted again because a date has several. |
| HoldingsAttribution.ExternalExact | snapshot/holdings_impact.go:427-432 | With one equity row per date and every transaction on one, neither correction remains. |
| HoldingsAttribution.ComputePeriodItem | snapshot/holdings_impact.go:423-464 | Profit, contribution and average weight as sums over the window, and the number of days on which the holding had a value or a quantity. |
| HoldingsAttribution.ComputePeriodItems | snapshot/holdings_impact.go:404-419 | Exactly one item per holding of the window, and their total profit, in whatever order the map is visited. |
| HoldingsAttribution.WeightsAddToOne | snapshot/holdings_impact.go:435-452 | When positions account for every funded day, the average weights before rounding add up to one. |
| Rounding.Round | snapshot/holdings_impact.go:397-399 | The nearest integer, and of two the one further from zero. |
| Rounding.Round6Fixes | snapshot/holdings_impact.go:397-399 | Rounding leaves a number of six decimals unchanged. |
| HoldingsImpact.ClampTopN | snapshot/holdings_impact.go:80-88 | A value in 1..50 is kept, a smaller one becomes 1 and a larger one 50. |
| HoldingsImpact.PrecedesIsWeakOrder | snapshot/holdings_impact.go:348-358 | The sort key is a strict weak order. |
| HoldingsImpact.AddsUp | snapshot/holdings_impact.go:362-375 | Rounded named items plus rest equal the rounded return exactly. |
| HoldingsImpact.ComputePeriod | snapshot/holdings_impact.go:331-394 | Zero opening equity, a failed guard, or a report whose items are the ranked top, with the rest counted, the sum exact, and years positive and the return annualised unless the period lies within one date. |
| HoldingsImpact.RestIsUnnamed | snapshot/holdings_impact.go:360-375 | The rest differs from the true contribution of the unnamed holdings by at most (n+1) half millionths plus the tolerance over opening equity. |
| HoldingsImpact.NamedDominate | snapshot/holdings_impact.go:348-370 | No unnamed holding contributed more in absolute terms than a named one. |
| HoldingsImpact.Report | snapshot/holdings_impact.go:51-78 | An error exactly for an unparsable date, not found exactly without equity or position rows, refused exactly when some period fails the guard, never for zero opening equity, and otherwise complete. |
| HoldingsImpact.RefusedOnExternalFlow | snapshot/holdings_impact.go:343-346 | On accounted books the report is refused exactly when some period has net external flow beyond the tolerance. |
| HoldingsImpact.DepositRefused | snapshot/holdings_impact.go:343-346 | A portfolio of cash that doubles by a deposit has accounted books in every period and is refused. |
| Drawdowns.Detect | snapshot/drawdowns.go:74-126 | The reported drawdowns are exactly the maximal stretches under a running maximum with depth of at least 5%, with their peak, first trough, recovery, depth and days, disjoint and in order; also for negative values, a peak of zero and repeated dates. |
| Drawdowns.DrawdownIsRecord | snapshot/drawdowns.go:74-126 | What is reported, field by field in terms of the series: a running maximum, the first lowest point under it, the end of the stretch, a fall of at least a twentieth of the peak, and the days. |
| Drawdowns.IndexOfDate | snapshot/drawdowns.go:75-82 | The first position with a date, or 0. |
| Drawdowns.DaysFromPeak | snapshot/drawdowns.go:75-94 | Days are counted from the peak when no date is repeated. |
| Drawdowns.SortDrawdowns | snapshot/drawdowns.go:129-135 | The in-place sort equals the sorting function. |
| StableSort.SortOrders | snapshot/drawdowns.go:129-135 | Sorting gives an ordered permutation. |
| StableSort.SortStable | snapshot/drawdowns.go:129-135 | Elements that tie keep their order. |
| Drawdowns.CycleAround | snapshot/drawdowns.go:74-126 | Every loss between two dates lies in a cycle at least as deep. |
| Drawdowns.DeepestIsWorst | snapshot/drawdowns.go:129-135 | Without negative values the first entry is the largest relative loss over all pairs of dates, and the list is empty exactly when no loss reaches 5%. |
| Drawdowns.DrawdownsOf | snapshot/drawdowns.go:31-60 | Detection and sorting together, also for an empty series: exactly the records of the series, deepest first, ties in order of time. |
| Ledger.LedgerAsOf | snapshot/holdings.go:100-120 | The replay of the transactions up to and including the date. |
| Ledger.ReplayTx | snapshot/holdings.go:123-164 | One transaction on the row of its ticker, opened on first sight. |
| Ledger.RowsIndependent | snapshot/holdings.go:123-164 | A ticker's row depends on its own transactions alone. |
| Ledger.ReplayResumes | snapshot/holdings.go:100-120 | Replay to a later date resumes from the ledger of an earlier one with the transactions in between. |
| Ledger.LedgerTells | snapshot/holdings.go:123-164 | For every log: a ticker has a row exactly when the log names it; its quantity is shares bought less shares sold, each times every later split; its cost what was paid less what sales released at the average cost of their time; its price the last positive one; its figi the first. |
| Ledger.LedgerHealthy | snapshot/holdings.go:150-164 | If no sale exceeds the quantity held, no quantity or cost is negative and an empty position costs nothing. |
| Ledger.AverageCostLaws | snapshot/holdings.go:150-164 | A sale keeps the average cost, a sale of everything brings the cost to zero, a split keeps the total cost. |
| Ledger.ToAsOfResponse | snapshot/holdings.go:168-198 | Exactly the positions with positive quantity, in ticker order, each with its quantity, the average cost that times the quantity is the total cost, the value at its last price and its figi if it has one; and the sum of the values. |
| StrategyUpgrade.ValidateParameters | portfolio/validate.go:193-209 | Accepts exactly the maps with the declared names, and names an unknown or a missing one otherwise. |
| StrategyUpgrade.CreateAcceptedIff | portfolio/validate.go:51-81 | Exactly which create requests are accepted, and what the accepted request becomes. |
| StrategyUpgrade.DiffParameters | portfolio/validate.go:141-175 | Classifies every name of either describe exactly once, by its last declaration on either side: kept or retyped with both types, removed, added with or without default. |
| StrategyUpgrade.MergeKeptAndDefaults | portfolio/upgrade.go:175-189 | Kept names with their current values and added names with their defaults. |
| StrategyUpgrade.MergedMeans | portfolio/upgrade.go:175-189 | The merge holds exactly the names that both describes last declare with one type, and the new names whose last declaration has a default. |
| StrategyUpgrade.MergedValues | portfolio/upgrade.go:175-189 | Kept names have their current value, and null without one; new names have the default of their first declaration. |
| StrategyUpgrade.CompatibleIffLossless | portfolio/validate.go:131-133 | A diff is compatible exactly when the merge is valid for the new describe and every stored value survives in it. |
| StrategyUpgrade.CompatibleIsCanMerge | portfolio/validate.go:131-175 | Compatible means no name gone or retyped and a default for every new one. |
| StrategyUpgrade.NoStoredDescribe | portfolio/upgrade_core.go:87-147 | A portfolio without stored describe merges exactly when every name of the new one has a default. |
| StrategyUpgrade.MatchPresetName | portfolio/validate.go:181-189 | The first preset equal to the parameters, or none if there is none. |
| StrategyUpgrade.Portfolios.ApplyUpgrade | portfolio/db.go:483-515 | Replaces one row, or reports that it is gone. |
| StrategyUpgrade.Portfolios.DoUpgrade | portfolio/upgrade_core.go:87-164 | Each outcome exactly under its condition, undecodable describes included; the row stored when applied, which is the write step of the interleaving model; a backtest submitted exactly then, and the row kept whatever the dispatcher answers. |
| StrategyUpgrade.StoredAlwaysValid | portfolio/upgrade_core.go:87-147 | After any interleaving of creates, deletes and concurrent upgrades every stored parameter map validates against the describe stored beside it. |
| StrategyUpgrade.WriteSurvivesIff | portfolio/db.go:483-515 | The values of a row survive a merging upgrade exactly when each is as it was read, or was added since and is the new default. |
| StrategyUpgrade.UndisturbedKeepsAll | portfolio/upgrade_core.go:87-147 | An upgrade that no other write of the row overtook loses no stored value, whatever else is interleaved. |
| StrategyUpgrade.OvertakenUpgradeLoses | portfolio/db.go:483-515 | An execution from the empty store in which the second of two concurrent upgrades of one row replaces the value given to the first. |
| UnsubscribeToken.Base64RoundTrip | alert/unsubscribe_token.go:40-58 | Decoding inverts unpadded base64url (section 5 of RFC 4648) on all byte strings. |
| UnsubscribeToken.DecodeRefuses | alert/unsubscribe_token.go:46-58 | A character outside the alphabet or a lone last digit is refused. |
| UnsubscribeToken.BreaksSkipped | alert/unsubscribe_token.go:46-58 | Line breaks anywhere make no difference to decoding. |
| UnsubscribeToken.UuidRoundTrip | alert/unsubscribe_token.go:35-75 | Parsing inverts printing of an id, and the print has no colon. |
| UnsubscribeToken.OtherForms | alert/unsubscribe_token.go:70-75 | The id is also read between any two characters and without dashes. |
| UnsubscribeToken.TokenRoundTrip | alert/unsubscribe_token.go:34-77 | A generated token verifies to its id and recipient, whatever characters the recipient has; under another secret exactly when the two codes agree. |
| UnsubscribeToken.TokensDiffer | alert/unsubscribe_token.go:34-43 | Equal tokens have equal ids and recipients. |
| UnsubscribeToken.AcceptedIffAuthentic | alert/unsubscribe_token.go:46-77 | A token is accepted with a given answer if and only if it carries the code of its own payload and the payload splits into that answer. |

## Left out

- HTTP handlers, JSON views, authentication, the docs routes and the generated API types: no invariant spans them.
- Docker and host runners, git clone and build, e-mail and alerts: a runner is a step that succeeds or fails.
- SQL text, connection pool and migrations: only the effect of each transaction is modelled. Two server instances on one database are not modelled.
- Dispatcher shutdown and its grace period; a stop is modelled as a crash.
- The map of broadcasters by run id and its cleanup ten seconds after completion; the model is one broadcaster.
- Stale .tmp files of the runner and their sweep.
- The calendar library: the schedule is any function that gives a later instant, the same for all instants before it.
- Floating-point rounding; math.Pow is an uninterpreted function.
- KPI, statistics, metrics, summary, prediction, short-term-return and performance readers: each reads its own rows of a finished snapshot once and writes nothing, so no state or law connects one of them to another function. The holdings history replays the ledger that is modelled here.
- Slug hashing and canonical JSON: preset equality is any relation.
- Strategy registry sync and stats refresh: which row they update is not decided when two strategies share a clone URL (strategy/db.go:80-90).
- ReadRetry.AtMostTwoTimelyFailures: counts only reads that no completion overtook, because the bound is false for the others (PassesCapIff says when); upgrades, which reset the status, are excluded as explicit requests.
- Scheduler.DispatchDue: requires the condition under which the loop ends (EndsIffLimited), since without it the loop can run for ever (RepeatedClaims.SpinsForever).
- Broadcaster.LineWriter.Write: trimming and JSON decoding of a line are parameters.
- HoldingsImpact.ComputePeriod: uses the insertion sort of StableSort for the standard library's stable sort.
- UnsubscribeToken.TokenRoundTrip: the keyed hash is an uninterpreted function.

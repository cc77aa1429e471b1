# AlphaLoop: order execution and backtesting, verified

This project models the parts of AlphaLoop in which an error costs money without being seen, and
proves what they guarantee:

* **The order execution protocol** (`Protocol`, `ProtocolInvariant`, `ProtocolFrames`,
  `ProtocolTheorems`, `ProtocolWitnesses`): lease lock, durable intent, write-ahead trade row, broker call, promotion. Any
  number of instances interleave; every write may fail and every instance may stop between any two
  awaits. One inductive invariant carries all theorems, which speak of every state of every run.
* **The code that runs that protocol**: `ExecutionService` (with `ExecutionSteps`) is one market order, from preflight to
  release, as imperative code over committed tables. Each commit is proved to be one step of the state
  machine, and other instances may do anything between two commits. `Recovery`, `Reconciler` and
  `Startup` (with `StartupWitnesses`) are the startup checks; they are proved to block exactly when the state machine's gate does.
  `HeartbeatLease` is the process lease of `main.py`; `OrderState` and `OrderRegistry` are the in-memory
  trackers.
* **The simulators**: `Indicators`, `IndicatorProperties`, `IndicatorMeaning` and `VbtEngine` (the bar loop), `VbtPerformance` (pairing, outcomes,
  compounding), `BacktestEngine` and `BacktestEndings` (the older engine, its books and how its runs end), `Wilder` (the smoothed directional
  indicators of the runner).
* **Kernels**: `Normalization` and `Construction` (structure-first trades, rounding included),
  `RateLimiter`, `JsonRepair`, `ReplayFunnel`, `Conviction`.

`dafny verify dfyconfig.toml` checks everything. Prices are exact reals, `round` is half-even
(`Rounding`), a missing value or NaN is an `Option`, an exception is a `Result`.

Each algorithm is proved against a specification function. What that function computes is then stated
once more without it, in the lemmas named `…Meaning` and `…Recurrence`: by what the result is compared
with, by an if and only if over the inputs, or by an equation without divisions.

## What turned out not to hold

Each of these is stated as a lemma with the exact condition, and shown at a concrete input.

* *A clean start leaves no order record non-terminal* fails. Recovery and reconciliation work in sessions
  that `main.py` never commits (`src/alphaloop/main.py:340-348`, `413-416`), so after a clean gate a
  committed record is non-terminal exactly when its process died between promotion and FILLED, and then it
  says SENT (`ProtocolTheorems.CleanGateLeavesSent`, `ProtocolTheorems.CleanGateIsTerminalIff`;
  `ProtocolWitnesses.CleanStartOverSentRecord` is a run in which an unforced start goes ahead over such a
  record). The gate turns critical when that position closes; from then on only a forced start gets the
  instance back (`ProtocolTheorems.PromotedTurnsCritical`, `ProtocolTheorems.OnlyForceRestarts`).
* A start that draws a fresh instance id sees no earlier execution at all: its checks object exactly to
  positions the broker lists (`Startup.FreshIdSeesOnlyPositions`; tables:
  `StartupWitnesses.FreshIdLetsStart`).
* A PENDING trade row never carries a ticket, so the reconciler's promotion branch is unreachable for rows
  written by the service (`ProtocolTheorems.PendingRowsHaveNoTicket`).
* A query or a flush that fails while stale rows are looked at is only logged, so the rows behind it do not
  hold a start back (`Reconciler.CriticalIff`, `Startup.StartLive`; inputs:
  `StartupWitnesses.UnreadableRowLetsStart`, `StartupWitnesses.FailedFlushHidesLostRow`).
* A failed write of a trade's outcome is only logged; the order is closed, the row stays PENDING, and five
  minutes later it blocks the next start (the `Closed` case of `ProtocolTheorems.Dirty`; run:
  `ProtocolWitnesses.LostOutcomeBlocks`).
* If the risk check raises, the symbol's lock stays until its lease runs out. An undisturbed call leaves its
  row exactly if it took the lock and the risk check raised or the release write failed
  (`ExecutionService.Database.ExecuteMarketOrder`; run: `ProtocolWitnesses.RaisedRiskKeepsOthersOut`).
* The execution lock is stamped with a clock reading taken before its transaction, so lease times count
  from that reading, not from the commit (`ProtocolTheorems.LeaseSafety`; run with two holders at once:
  `ProtocolWitnesses.StaleStampLetsTwoIn`).
* The heartbeat lease is released by scope, not by owner; a deposed process deletes its successor's row
  (`HeartbeatLease.ReleaseKeepsIff`; run: `HeartbeatLease.DeposedReleaseBreaksIt`).
* JSON repair closes brackets before braces (`JsonRepair.RepairNestsIff`; `[{1`:
  `JsonRepair.CrossedClosers`), and it is not idempotent (`JsonRepair.IdempotentIff`; `1 ,`:
  `JsonRepair.RepairedTwice`).
* The older backtest engine raises after its loop when the trade still open at the end was sized to zero
  lots (`BacktestEndings.CrashIff`, `BacktestEndings.LotsZeroIff`; run: `BacktestEndings.TinyRiskCrashes`;
  `BacktestEndings.FundedNeverCrashes` is a condition on the settings under which no run does). It prices a
  trade that an early stop leaves open with the last bar of the range, which lies in the future
  (`BacktestEndings.EarlyStopPricesAtTheEnd`; two series: `BacktestEndings.EarlyStopReadsTheFuture`). Its
  drawdown at a bar is the worst fall into that bar exactly if equity is not negative there or no lower
  positive value came before (`BacktestEngine.BarDrawdownIff`, and for the whole curve
  `BacktestEngine.CurveDrawdownIff`; curve:
  `BacktestEngine.NegativeEquityBreaksIt`).
* The minimum lot may break the per-trade risk limit (`VbtPerformance.LossBoundIff`; trade:
  `VbtPerformance.MinimumLotBreaksLimit`).
* A rate limiter that allows no call raises IndexError (`RateLimiter.RefusedIffWindowFull`;
  `RateLimiter.ZeroCallsRaise`), and a negative penalty budget divides by zero when there is no penalty
  (`Conviction.ConvictionScorer.ScoreOf`; `Conviction.NegativeBudgetRaises`).

## Model

| member | source | states |
|---|---|---|
| ProtocolInvariant.RunInv | src/alphaloop/execution/service.py:115-350 | the invariant tying locks, order records, trade rows, tickets, submissions and program counters together holds in every state of every run |
| ProtocolInvariant.StepInv | src/alphaloop/execution/service.py:115-224 | every step of every instance keeps it, whether the write succeeds, fails, or the process stops |
| ProtocolFrames.StepFrame | src/alphaloop/execution/service.py:352-456 | a step writes only its own order record, keeps every record's identity and every row's stamp, and only fresh tickets appear |
| ProtocolTheorems.LeaseSafety | src/alphaloop/execution/control_plane.py:152-224 | two instances are inside one symbol's critical section only if the older stamp is more than the 30 s lease old |
| ProtocolTheorems.LiveLeaseHasRow | src/alphaloop/execution/control_plane.py:175-191 | a holder whose lease is running owns the row in the table, with its own stamp |
| ProtocolTheorems.RowsLeaveOnlyByOwnerOrExpiry | src/alphaloop/execution/control_plane.py:164-221 | a lock row goes only by the release of the call that wrote it or by a sweep past the lease; a late release never removes a successor's row |
| ProtocolTheorems.WriteAhead | src/alphaloop/execution/service.py:115-172 | at every submission the order is durably APPROVED and its trade row durably PENDING under the same client id, never submitted before |
| ProtocolTheorems.AtMostOnce | src/alphaloop/execution/control_plane.py:117-150 | no client id is submitted twice over all instances and restarts; it was submitted exactly if its execution got past the journal |
| ProtocolTheorems.TicketsAreUnique | src/alphaloop/execution/service.py:248-261 | no two order records and no two trade rows carry the same ticket |
| ProtocolTheorems.StatusRefinement | src/alphaloop/execution/service.py:450-456 | each durable status change is an edge of the tracker's table, records start PENDING and keep their identity |
| ProtocolTheorems.ClosedStaysClosed | src/alphaloop/execution/service.py:248-324 | a FILLED, REJECTED or FAILED record keeps its status through any further run |
| ProtocolTheorems.AbandonedIsFrozen | src/alphaloop/main.py:340-348 | once no instance works on an order nothing writes its record again |
| ProtocolTheorems.GateExact | src/alphaloop/execution/reconciler.py:121-274 | the startup checks are critical if and only if some execution of the instance stopped before promotion, lost its position before FILLED, or closed without telling its row |
| ProtocolTheorems.ToldRowMatchesOrder | src/alphaloop/execution/service.py:316-324 | the row of a closed execution that was told its outcome carries the outcome of the order's status |
| ProtocolTheorems.CompletedRunsAreClean | src/alphaloop/execution/service.py:246-350 | executions that ran to the end, with truthful answers and no lost write, raise no critical issue |
| ProtocolTheorems.PendingRowsHaveNoTicket | src/alphaloop/execution/reconciler.py:219-264 | a PENDING row never has a ticket; any stale one is critical |
| ProtocolTheorems.OnlyForceRestarts | src/alphaloop/main.py:474-517 | after such a stop every unforced restart under the same instance id is refused for ever, whatever else happens |
| ProtocolTheorems.CleanGateLeavesSent | src/alphaloop/main.py:340-348 | after a clean gate a committed record is non-terminal if and only if its execution stopped between promotion and FILLED, if and only if it says SENT; its position is open and its row OPEN |
| ProtocolTheorems.CleanGateIsTerminalIff | src/alphaloop/main.py:340-348 | after a clean gate all committed records of the instance are terminal if and only if no execution is left promoted but not FILLED |
| ProtocolTheorems.PromotedTurnsCritical | src/alphaloop/main.py:413-416 | a promoted order left SENT becomes critical when its position closes |
| ProtocolTheorems.OpenUnlessClosed | src/alphaloop/execution/service.py:163-172 | the position of an execution stays open until it is closed at the broker |
| ProtocolWitnesses.CleanStartOverSentRecord | src/alphaloop/main.py:340-348 | a run in which an unforced start goes ahead while a committed record is SENT |
| ProtocolWitnesses.LostOutcomeBlocks | src/alphaloop/execution/service.py:432-448 | a run without a crash, with one lost outcome write, that ends with a critical gate |
| ProtocolWitnesses.StaleStampLetsTwoIn | src/alphaloop/execution/control_plane.py:159-191 | a run with two holders of one symbol, the second taking the lock in the second the first committed it |
| ProtocolWitnesses.RaisedRiskKeepsOthersOut | src/alphaloop/execution/control_plane.py:91-115 | a run in which a raised risk check keeps every other instance off the symbol for a whole lease |
| ExecutionService.Database.Commit | src/alphaloop/execution/service.py:450-456 | one commit is one step of the state machine |
| ExecutionService.Database.AcquireExecutionLock | src/alphaloop/execution/control_plane.py:152-204 | sweep and insert in one transaction: with our row in the table it returns true, and it fails only on an error or a row within its lease |
| ExecutionService.Database.ReleaseExecutionLock | src/alphaloop/execution/control_plane.py:210-225 | after a successful release the caller owns no row of the symbol |
| ExecutionService.Database.Preflight | src/alphaloop/execution/control_plane.py:69-150 | admitted only with a durable PENDING intent; undisturbed, the exact conditions for admission and for a raised risk check, and the lock table afterwards: our row given back after a block, standing after a raise |
| ExecutionService.Database.PersistOrderIntent | src/alphaloop/execution/control_plane.py:123-142 | the intent is written exactly if the write succeeds and neither id is taken |
| ExecutionService.Database.Journal | src/alphaloop/execution/service.py:115-161 | goes on exactly if the order is APPROVED and the row written; otherwise outcome and records are determined by the failed write |
| ExecutionService.Database.CreatePendingTradeLog | src/alphaloop/execution/service.py:352-407 | the PENDING row stands under the order's client id, or the order is to be failed |
| ExecutionService.Database.OpenOrder | src/alphaloop/execution/service.py:163-172 | exactly one act of the call, the last, submits; it is the first submission of the client id, and the position stands if the broker opened one |
| ExecutionService.Database.UpdateToSent | src/alphaloop/execution/service.py:247-253 | the committed order is SENT with the ticket, or still APPROVED without one and the call raises |
| ExecutionService.Database.ConfirmTradeLog | src/alphaloop/execution/service.py:409-430 | the committed row is OPEN with the ticket, or still PENDING without one and the call raises |
| ExecutionService.Database.UpdateTradeOutcome | src/alphaloop/execution/service.py:432-448 | the row takes the outcome, or stays PENDING while the call goes on |
| ExecutionService.Database.Close | src/alphaloop/execution/service.py:316-324 | the final status of a failed execution is committed, and the report names that very status; or the order stays APPROVED and the call raises |
| ExecutionService.Database.Reject | src/alphaloop/execution/service.py:316-324 | a refusal with a message and no exception is committed and reported as REJECTED, any other failure as FAILED; the row is told first |
| ExecutionService.Database.UpdateToFilled | src/alphaloop/execution/service.py:280-288 | the committed order is FILLED with its ticket, or still SENT and the call raises |
| ExecutionService.Database.Finalize | src/alphaloop/execution/service.py:246-314 | a fill becomes durable in three writes; the report is FILLED exactly if all three succeed, and the first that fails fixes what is left |
| ExecutionService.Database.Submission | src/alphaloop/execution/service.py:163-215 | report, order, row and ticket after the broker's answer are determined by the answers, and a report names the status and ticket of the committed order |
| ExecutionService.Database.ExecuteAdmitted | src/alphaloop/execution/service.py:115-215 | what an admitted call does before it gives its lock back: outcome, progress and committed status are determined by the answers |
| ExecutionService.Database.ExecuteMarketOrder | src/alphaloop/execution/service.py:56-224 | an admitted call reports FILLED, REJECTED or FAILED exactly if the committed order says so, with its ticket, and exactly under which answers; if it raises, the order is PENDING, APPROVED or SENT. Order, row and position left behind are determined by what each await met; undisturbed, the exact condition for admission and for leaving its lock row |
| ExecutionService.OutcomeMeaning | src/alphaloop/execution/service.py:115-350 | which answers lead to which report: FILLED after a fill and three writes, REJECTED after a refusal with a message that did not raise, FAILED after any other failure or a lost journal; all others end in an exception |
| ExecutionService.FinalMeaning | src/alphaloop/execution/service.py:115-350 | status, ticket and trade row an admitted call leaves committed, each by an if and only if over the answers |
| Recovery.OrderSession.UpdateStatus | src/alphaloop/db/repositories/order_repo.py:61-80 | only the given columns change, and a missing order is an error |
| Recovery.OrderSession.GetNonTerminal | src/alphaloop/db/repositories/order_repo.py:94-104 | lists every non-terminal record of the instance once |
| Recovery.OrderSession.RecoverStartupOrders | src/alphaloop/execution/recovery.py:64-158 | the table, the issues and the counters after a recovery, and what a failing broker query leaves |
| Recovery.SelectedMeaning | src/alphaloop/db/repositories/order_repo.py:94-104 | looked at are exactly the records of the instance short of a final status; all others stay as they are |
| Recovery.ResolvedWithPosition | src/alphaloop/execution/recovery.py:94-120 | a record whose ticket is open becomes FILLED at the price and volume of the last position listed under that ticket, its note cleared, its issue resolved |
| Recovery.ResolvedWithoutPosition | src/alphaloop/execution/recovery.py:121-158 | any other selected record becomes RECOVERY_PENDING, keeps its fill columns, says whether a ticket or a position was missing, and raises a critical issue |
| Recovery.CriticalIffUnmatched | src/alphaloop/execution/recovery.py:89-158 | critical exactly if a selected record has no open position under its ticket, which is exactly if the session leaves one non-terminal |
| Recovery.RecoveryIsIdempotent | src/alphaloop/execution/recovery.py:87-143 | recovering again from the recovered table changes nothing |
| Recovery.RecoveryFollowsTheTable | src/alphaloop/execution/recovery.py:94-143 | recovery writes only the restart state or the edge SENT to FILLED |
| Recovery.RecoveryIsTheGate | src/alphaloop/execution/recovery.py:64-158 | on a truthful snapshot of a reachable state it is critical exactly when the state machine's recovery check is |
| Reconciler.PositionReconciler.Reconcile | src/alphaloop/execution/reconciler.py:75-301 | the report and the promoted rows for every answer of the three queries and of every flush |
| Reconciler.PositionReconciler.PromoteStale | src/alphaloop/execution/reconciler.py:226-271 | stale rows with an open ticket become OPEN in place, all others are critical, up to the first flush that fails |
| Reconciler.SeenMeaning | src/alphaloop/execution/reconciler.py:219-271 | either every stale row is looked at, or the last one looked at is the first whose flush fails |
| Reconciler.OpenByTicketMeaning | src/alphaloop/execution/reconciler.py:123-134 | the ticket index holds exactly the tickets of open rows, each with a row that carries it |
| Reconciler.CriticalIff | src/alphaloop/execution/reconciler.py:136-274 | critical exactly if a position has no OPEN row or a stale PENDING row that was looked at has no position; mismatches never are |
| Reconciler.FindingsMeaning | src/alphaloop/execution/reconciler.py:121-274 | a full comparison raises exactly the issues that are warranted: kind, severity and ticket of every orphan, of every volume, stop or target further apart than its tolerance, and of every stale row |
| Broker.ByTicketIsLast | src/alphaloop/execution/reconciler.py:107-120 | the ticket index holds the last position listed under each ticket |
| Reconciler.ReconciliationIsTheGate | src/alphaloop/execution/reconciler.py:75-301 | on a truthful snapshot of a reachable state it agrees with the state machine's check and promotes nothing |
| Startup.StartLive | src/alphaloop/main.py:333-526 | for every answer of database and broker, a live start goes ahead exactly if neither check holds it back or it is forced with a reason, and never without the order table; stale rows that were not looked at do not hold it back |
| Startup.StartIsTheGate | src/alphaloop/main.py:333-526 | on the tables of a reachable state and truthful answers the two checks hold a start back exactly when the state machine's gate is critical |
| Startup.StartMeansConsistent | src/alphaloop/main.py:333-526 | crash consistency: an unforced start means no dirty execution and an OPEN row for every position; the recovery session leaves no record non-terminal, and of the committed records exactly those left promoted but not FILLED are |
| Startup.FreshIdSeesOnlyPositions | src/alphaloop/main.py:196 | under a fresh instance id the checks object exactly to positions the broker lists |
| StartupWitnesses.UnreadableRowLetsStart | src/alphaloop/execution/reconciler.py:219-271 | a start that goes ahead over a lost row because the query for stale rows failed |
| StartupWitnesses.FailedFlushHidesLostRow | src/alphaloop/execution/reconciler.py:250-271 | a report that is clean over a lost row because a flush before it failed |
| StartupWitnesses.FreshIdLetsStart | src/alphaloop/main.py:196 | tables on which a start under the old id is refused and under a fresh one goes ahead |
| HeartbeatLease.LeaseTable.AcquireLease | src/alphaloop/main.py:541-571 | acquired exactly if there is no row or its last heartbeat is a whole lease old; then the row is ours for 120 s, and otherwise nothing changes |
| HeartbeatLease.LeaseTable.RefreshHeartbeat | src/alphaloop/main.py:574-590 | refreshes only one's own row |
| HeartbeatLease.LeaseTable.ReleaseLease | src/alphaloop/main.py:1195-1202 | deletes the row of the scope, whoever owns it |
| HeartbeatLease.LeaseSafety | src/alphaloop/main.py:541-592 | without a deposed release, of two processes holding the lease one has been silent for a whole lease |
| HeartbeatLease.ReleaseKeepsIff | src/alphaloop/main.py:1195-1202 | exactly which releases keep the lease's invariant |
| HeartbeatLease.DeposedReleaseBreaksIt | src/alphaloop/main.py:1195-1202 | a run with two live holders after a deposed release |
| OrderState.OrderTracker.TransitionTo | src/alphaloop/execution/order_state.py:100-118 | moves and records exactly the edges of the table, and changes nothing otherwise |
| OrderState.OrderTracker.MarkSent | src/alphaloop/execution/order_state.py:137-140 | takes the ticket exactly from PENDING or APPROVED, which is when it becomes SENT |
| OrderState.OrderTracker.MarkFilled | src/alphaloop/execution/order_state.py:142-154 | takes the fill exactly from SENT, PARTIAL or the restart state, which is when it becomes FILLED |
| OrderState.ReachedFrom | src/alphaloop/execution/order_state.py:72-98 | the table read by its columns: from where each state is reached |
| OrderState.AuditIsAPath | src/alphaloop/execution/order_state.py:100-118 | over any calls the audit list is a chained path of valid edges ending at the state |
| OrderState.TerminalIsAbsorbing | src/alphaloop/execution/order_state.py:72-118 | FILLED, CANCELLED and REJECTED are absorbing over all call sequences, and no other state is |
| OrderState.FilledWasSent | src/alphaloop/execution/order_state.py:137-165 | a tracker born PENDING is FILLED or PARTIAL, or holds a ticket, only after it was SENT |
| OrderRegistry.Registry.ReloadFromDb | src/alphaloop/execution/order_state.py:206-232 | the orders and the index after a reload, which the next three rows pin |
| OrderRegistry.ReloadedIsLast | src/alphaloop/execution/order_state.py:206-232 | an order is what its last record says, waiting for recovery |
| OrderRegistry.ReloadedTicketIsLast | src/alphaloop/execution/order_state.py:206-232 | a ticket leads to the last record that carries it |
| OrderRegistry.ReloadedElsewhere | src/alphaloop/execution/order_state.py:206-232 | orders and tickets without a record are as before; zero is no ticket |
| OrderRegistry.Registry.GetByTicket | src/alphaloop/execution/order_state.py:257-260 | finds exactly the indexed order, if it is still registered |
| OrderRegistry.Registry.CleanupTerminal | src/alphaloop/execution/order_state.py:277-293 | removes the right number of terminal orders, none newer than a kept one, with their index entries |
| OrderRegistry.SortMeaning | src/alphaloop/execution/order_state.py:277-293 | sorting by creation time yields a sorted permutation |
| OrderRegistry.LookupAfterCleanup | src/alphaloop/execution/order_state.py:257-293 | a removed order is never found; a survivor is found as before exactly if no removed order held its ticket |
| OrderRegistry.UniqueTicketsSurvive | src/alphaloop/execution/order_state.py:257-293 | with tickets unique to their orders every survivor is found as before |
| OrderRegistry.ActiveOrdersStay | src/alphaloop/execution/order_state.py:277-293 | non-terminal orders stay, and of the terminal ones exactly max_keep, or all if there are fewer, or none for a negative limit |
| VbtEngine.Replay | src/alphaloop/backtester/vbt_engine.py:216-455 | the loop over the flag arrays computes the marks of every bar |
| VbtEngine.Simulate | src/alphaloop/backtester/vbt_engine.py:149-455 | the first pass raises exactly if some construction does, and otherwise every entry flag stands with the close, the constructed stop, the first target and the direction of its trade, every exit flag where the marks say |
| VbtEngine.EntryMeaning | src/alphaloop/backtester/vbt_engine.py:262-455 | an entry means that the rules gave its direction and no filter objected; it records the close, the stop and TP1 constructed from the last 60 bars |
| VbtEngine.NoEntryMeaning | src/alphaloop/backtester/vbt_engine.py:262-437 | any other bar with a direction and no open trade: a filter objects or nothing can be constructed, and only the construction may raise |
| VbtEngine.ExitMeaning | src/alphaloop/backtester/vbt_engine.py:240-262 | a bar is an exit exactly if it reaches the stop or the target of the open trade |
| VbtEngine.EntryIsOrdered | src/alphaloop/backtester/vbt_engine.py:425-455 | with settings a caller can check, the stop of every entry lies on the loss side of the close and its target on the profit side |
| VbtEngine.FlagsMeaning | src/alphaloop/backtester/vbt_engine.py:439-455 | every entry flag stands with price, stop, target and direction of its trade |
| VbtEngine.FilterMeaning | src/alphaloop/backtester/vbt_engine.py:324-406 | what each of the nine safety filters objects to, in shares and multiples of price, ATR and range |
| VbtEngine.NoLookAhead | src/alphaloop/backtester/vbt_engine.py:238-455 | histories that agree up to bar k give the same entries, prices, stops, targets and exits up to bar k |
| VbtPerformance.PairTrades | src/alphaloop/backtester/vbt_engine.py:465-474 | the two-pointer pairing computes its recursive definition |
| VbtPerformance.PairingMeaning | src/alphaloop/backtester/vbt_engine.py:465-474 | whatever the flags, an entry is paired with the first exit behind it that no earlier entry has taken, and an entry for which none is left with none |
| VbtPerformance.PairsGoForward | src/alphaloop/backtester/vbt_engine.py:465-474 | every pair is an entry with a later exit |
| VbtPerformance.PairingIsZip | src/alphaloop/backtester/vbt_engine.py:465-474 | on alternating flags it pairs the k-th entry with the k-th exit |
| VbtPerformance.FlagsTakeTurns | src/alphaloop/backtester/vbt_engine.py:238-455 | entries and exits strictly alternate; at most one trailing entry is unpaired, the trade still open |
| VbtPerformance.TwoPassesAgree | src/alphaloop/backtester/vbt_engine.py:462-506 | each pair settles at the prices of its entry; it is booked as lost exactly if the exit bar reaches the stop, which is what the loop saw first, and a win really reached its target |
| VbtPerformance.Settle | src/alphaloop/backtester/vbt_engine.py:476-511 | profits and equity curve are those of the ledger, whose entries LossMeaning and WinMeaning pin |
| VbtPerformance.EquitySteps | src/alphaloop/backtester/vbt_engine.py:508-511 | each step of the equity curve is the booked profit |
| VbtPerformance.LotsInRange | src/alphaloop/backtester/vbt_engine.py:490-491 | lots lie in [min_lot, max_lot] exactly if these are ordered |
| VbtPerformance.LossMeaning | src/alphaloop/backtester/vbt_engine.py:486-502 | a stop loses the configured share of the balance, or what the smallest or largest lots lose over its distance where these bind; no trade is booked exactly if entry and stop coincide |
| VbtPerformance.WinMeaning | src/alphaloop/backtester/vbt_engine.py:493-506 | win and loss of one trade on one balance are in the ratio of target to stop distance |
| VbtPerformance.UnclampedWin | src/alphaloop/backtester/vbt_engine.py:486-506 | where the lot limits do not bind a win books balance·risk share·target distance / stop distance |
| VbtPerformance.TargetPaysItsDistance | src/alphaloop/backtester/vbt_engine.py:493-506 | a target three stops away books three times the stop |
| VbtPerformance.LossBoundIff | src/alphaloop/backtester/vbt_engine.py:486-506 | a trade loses at most the risk share of the balance exactly if it wins or the minimum lot does not bind |
| VbtPerformance.MinimumLotBreaksLimit | src/alphaloop/backtester/vbt_engine.py:490-495 | a trade that loses ten times its share |
| VbtPerformance.CompoundingBound | src/alphaloop/backtester/vbt_engine.py:476-511 | if the minimum lot never binds, equity after n trades is at least start·(1−risk)^n |
| VbtPerformance.RunBacktest | src/alphaloop/backtester/vbt_engine.py:216-511 | both passes together: it succeeds exactly if no construction raises, and gives the equity curve of the k-th entry with the k-th exit |
| Indicators.DetectFvg | src/alphaloop/data/indicators.py:112-170 | the loop finds the last three gaps on each side |
| Indicators.FindSwings | src/alphaloop/data/indicators.py:173-203 | the loop finds the last five swing highs and lows |
| IndicatorProperties.EwmWithin | src/alphaloop/data/indicators.py:22-24 | an exponential average stays within the range of what it has seen |
| IndicatorProperties.RsiRange | src/alphaloop/data/indicators.py:27-38 | RSI lies in [0, 100], with the exact conditions for both ends |
| IndicatorMeaning.EmaRecurrence | src/alphaloop/data/indicators.py:22-24 | the EMA recurrence, without its division |
| IndicatorMeaning.WilderRecurrence | src/alphaloop/data/indicators.py:27-53 | Wilder smoothing starts at the first value and moves one period-th towards each new one |
| IndicatorMeaning.AtrMeaning | src/alphaloop/data/indicators.py:41-53 | ATR smooths what a bar spans together with the close before it |
| IndicatorMeaning.RsiMeaning | src/alphaloop/data/indicators.py:27-38 | RSI is the smoothed gain in percent of smoothed gain and loss together, 100 without loss |
| IndicatorMeaning.MacdMeaning | src/alphaloop/data/indicators.py:209-235 | the histogram is how far EMA 12 − EMA 26 lies above its own EMA 9 |
| IndicatorMeaning.BosMeaning | src/alphaloop/data/indicators.py:73-109 | a break of structure exactly if the last close is more than 0.2 ATR beyond every one of the 20 highs, or lows, before it; the levels are the outermost of these, rounded |
| IndicatorMeaning.WindowMeaning | src/alphaloop/backtester/vbt_engine.py:285-288 | bar j of the window at a bar is that bar of the series, price by price |
| IndicatorMeaning.GapsMeaning | src/alphaloop/data/indicators.py:112-170 | the gaps reported on each side are those of the last three gap bars in reach, oldest first, with their edges rounded, and a side has one exactly if it reports one |
| IndicatorMeaning.SwingsMeaning | src/alphaloop/data/indicators.py:173-203 | the swings are the last five bars on each side that nothing within five bars exceeds, oldest first |
| IndicatorProperties.StructureMirror | src/alphaloop/data/indicators.py:112-203 | swings and gaps of mirrored prices are the mirrored swings and gaps |
| IndicatorProperties.TradeMirror | src/alphaloop/pipeline/construction.py:94-175 | from bars to trade, mirrored prices give the mirrored trade |
| BacktestEngine.ExitMeaning | src/alphaloop/backtester/engine.py:460-520 | lost exactly if the bar touches the stop, won exactly if it touches a target and not the stop, open exactly if neither, at which price, and the profit within half a cent |
| BacktestEngine.ExitSign | src/alphaloop/backtester/engine.py:460-520 | with stop and targets on their sides a lost trade never gains and a won one never loses |
| BacktestEngine.EnterMeaning | src/alphaloop/backtester/engine.py:243-276 | a signal fills worse by the slip, risks the configured share over the stop distance up to a ten-thousandth of a lot, and pays its commission at once |
| BacktestEngine.ForcedCloseMeaning | src/alphaloop/backtester/engine.py:283-302 | a trade open at the end closes at the last close of the range, with its profit within half a cent |
| BacktestEngine.WholeUnits | src/alphaloop/backtester/engine.py:249-302 | profits are whole cents, lots whole ten-thousandths, drawdowns whole hundredths of a percent |
| BacktestEngine.Backtest | src/alphaloop/backtester/engine.py:197-319 | the loop, early stop, exception and forced close compute the specified run |
| BacktestEngine.EquityAccounting | src/alphaloop/backtester/engine.py:207-305 | however a run ends, the curve ends at start + profits − commissions, every opened trade is listed once, and bar spans are disjoint |
| BacktestEngine.StopCostsTheRisk | src/alphaloop/backtester/engine.py:249-261 | a stopped trade costs the configured share of the equity it was opened on, up to rounding of lots and profit |
| BacktestEndings.EarlyStopPricesAtTheEnd | src/alphaloop/backtester/engine.py:219-302 | two series equal on every bar before an early stop give different results exactly if a trade is open there and the last closes of the range differ, and different equity exactly if the rounded gains do |
| BacktestEndings.EarlyStopReadsTheFuture | src/alphaloop/backtester/engine.py:219-302 | a run stopped at bar 1 whose final equity depends on the close of bar 2 |
| BacktestEndings.LotsZeroIff | src/alphaloop/backtester/engine.py:256-261 | lots round to zero exactly if the amount at risk is at most half a ten-thousandth of the stop distance |
| BacktestEndings.CrashIff | src/alphaloop/backtester/engine.py:285-302 | a run raises exactly if a trade is open at its end and the range leaves the data or the amount at risk when it was opened was that small |
| BacktestEndings.FundedNeverCrashes | src/alphaloop/backtester/engine.py:207-302 | with sound signals and a start that affords a stop a bar, commissions included and every rounding against it, no run raises, whatever the prices |
| BacktestEndings.TinyRiskCrashes | src/alphaloop/backtester/engine.py:285-302 | a run of one bar that raises |
| BacktestEngine.DrawdownIsWorstFall | src/alphaloop/backtester/engine.py:84-91 | for equity that is never negative the running-peak drawdown is the worst relative fall between any two points |
| BacktestEngine.MaxDrawdownPctIsWorstFall | src/alphaloop/backtester/engine.py:84-91 | so is the reported percentage, within half a hundredth of a percent |
| BacktestEngine.NothingToFallFrom | src/alphaloop/backtester/engine.py:84-91 | a curve that is never above zero has no drawdown |
| BacktestEngine.CurveDrawdownIff | src/alphaloop/backtester/engine.py:84-91 | for any curve that starts above zero the drawdown is the worst fall exactly if at every negative bar it reaches the fall from the lowest positive value so far |
| BacktestEngine.BarDrawdownIff | src/alphaloop/backtester/engine.py:84-91 | the drawdown at a bar is the worst fall into it exactly if equity is not negative there or every positive value before equals the peak |
| BacktestEngine.NegativeEquityBreaksIt | src/alphaloop/backtester/engine.py:84-91 | a curve with negative equity where it is not |
| Wilder.AdxArrays | src/alphaloop/backtester/runner.py:425-474 | the three coupled smoothing loops compute +DI, −DI and ADX as specified |
| Wilder.MovementMeaning | src/alphaloop/backtester/runner.py:436-447 | only the larger of rise and fall counts, and only if positive; the range spans the bar and the close before it |
| Wilder.SmoothRecurrence | src/alphaloop/backtester/runner.py:449-458 | Wilder's recurrence without its division, from a plain sum of the first bars |
| Wilder.DirectionMeaning | src/alphaloop/backtester/runner.py:460-468 | +DI and −DI are the smoothed movements in percent of the smoothed range, DX their gap in percent of their sum; all defined exactly if the range is positive |
| Wilder.AdxRecurrence | src/alphaloop/backtester/runner.py:470-476 | ADX starts as the mean of the defined DX and moves one period-th towards each DX; once undefined it stays so |
| Wilder.SmoothDominated | src/alphaloop/backtester/runner.py:440-452 | smoothed movements stay non-negative and below the smoothed range |
| Wilder.DirectionalBounds | src/alphaloop/backtester/runner.py:425-474 | +DI and −DI are non-negative and sum to at most 100 |
| Wilder.AllBounds | src/alphaloop/backtester/runner.py:425-474 | the bounds at every index, with 0 ≤ ADX ≤ 100 |
| Normalization.BoundsAreRealDistances | src/alphaloop/core/normalization.py:27-87 | a stop that passes the rounded check lies within the bounds up to half a hundredth of a point |
| Normalization.DistanceMeaning | src/alphaloop/core/normalization.py:27-62 | the gap, its points and its ATR multiple, each to its decimals; only a pip size that is not positive raises |
| Construction.TradeConstructor.DeriveSl | src/alphaloop/pipeline/construction.py:184-225 | tries candidates in priority order and leaves the audit of those before the chosen one; which candidates, where and in what order is BuyCandidatesFrom and BuyCandidatesOrder |
| Construction.TradeConstructor.Construct | src/alphaloop/pipeline/construction.py:94-175 | builds the specified trade or refusal, whose numbers BuyMeaning pins |
| ConstructionProperties.BuyMeaning | src/alphaloop/pipeline/construction.py:119-159 | for every accepted BUY the stop is, within half a price unit, a buffer of sl_buffer_atr ATRs below the highest swing low below the ask, below the bottom of the latest bullish gap below it, or below ask − ATR·sl_atr_mult, as its source says; zone and targets follow from that stop within rounding |
| ConstructionProperties.SignalOnGrid | src/alphaloop/pipeline/construction.py:119-159 | every price of a signal is a whole number of price units, its R:R of hundredths |
| ConstructionProperties.BuyCandidatesFrom | src/alphaloop/pipeline/construction.py:231-275 | every candidate lies a buffer beyond the level its source names |
| ConstructionProperties.BuyCandidatesOrder | src/alphaloop/pipeline/construction.py:231-275 | swing low before gap before fallback, each once and exactly if there is such a level |
| ConstructionProperties.TurnedDownMeaning | src/alphaloop/pipeline/construction.py:208-225 | a candidate is turned down only for a distance below the minimum or above the maximum, up to rounding, and the reason says which |
| ConstructionProperties.RejectionsMeaning | src/alphaloop/pipeline/construction.py:208-225 | the audit has one entry per candidate before the first within bounds, with source, price, distance and reason |
| ConstructionProperties.FirstInBoundsMeaning | src/alphaloop/pipeline/construction.py:208-225 | the stop is the first candidate in bounds, and there is none exactly if all are out of bounds |
| ConstructionProperties.AcceptedIffSomeCandidateFits | src/alphaloop/pipeline/construction.py:126-147 | a signal exactly if some candidate fits; an exception exactly if there is one to measure with a bad pip size |
| ConstructionProperties.ConstructionMirror | src/alphaloop/pipeline/construction.py:94-340 | mirrored prices, sides and structure give the mirrored trade, rounding included |
| ConstructionProperties.TradeGeometry | src/alphaloop/pipeline/construction.py:126-147 | stop and targets on their sides once beyond the rounding unit, and R:R within rounding of the configured one |
| ConstructionProperties.AcceptedTradeIsOrdered | src/alphaloop/pipeline/construction.py:126-159 | with settings a caller can check, every accepted trade is strictly ordered after rounding |
| RateLimiter.AsyncRateLimiter.Acquire | src/alphaloop/ai/rate_limiter.py:36-59 | evicts, refuses or appends as the specification does |
| RateLimiter.AcceptedAreSpaced | src/alphaloop/ai/rate_limiter.py:36-59 | calls max_calls apart are more than a window apart, over every run with a non-decreasing clock |
| RateLimiter.RefusedIffWindowFull | src/alphaloop/ai/rate_limiter.py:36-59 | refused exactly if max_calls accepted calls lie in the closed window ending now; raises exactly if no call is allowed |
| RateLimiter.ZeroCallsRaise | src/alphaloop/ai/rate_limiter.py:45-55 | a first call that raises |
| RateLimiter.WaitIsExact | src/alphaloop/ai/rate_limiter.py:45-55 | the reported wait is exact |
| JsonRepair.RepairJson | src/alphaloop/ai/json_repair.py:10-82 | the character loops compute the specified repair |
| JsonRepair.CutMeaning | src/alphaloop/ai/json_repair.py:18-47 | a truncated text is cut at the last comma or opener, or behind the last closer, outside its strings, and at its start only if there is none |
| JsonRepair.KeptExtent | src/alphaloop/ai/json_repair.py:71-77 | of the text, cut if it must be, exactly the white space at the end goes, then the commas at the end of that |
| JsonRepair.CountersMeaning | src/alphaloop/ai/json_repair.py:34-47 | the counters are openers minus closers outside the strings |
| JsonRepair.QuotesMeaning | src/alphaloop/ai/json_repair.py:22-33 | without backslashes a text ends inside a string exactly if its quotes are odd in number |
| JsonRepair.BackslashMeaning | src/alphaloop/ai/json_repair.py:22-33 | a backslash means nothing outside a string, and inside takes the next character with it |
| JsonRepair.CutInsideString | src/alphaloop/ai/json_repair.py:71-82 | `[1,"a` is repaired to `[1]` |
| JsonRepair.KeptMeaning | src/alphaloop/ai/json_repair.py:18-82 | the result is a prefix of the input, ending outside a string, plus closers |
| JsonRepair.RepairCounts | src/alphaloop/ai/json_repair.py:18-82 | the result ends outside a string and leaves no bracket open |
| JsonRepair.RepairNestsIff | src/alphaloop/ai/json_repair.py:71-82 | properly nested exactly if the kept prefix nests with every open brace outside every open bracket |
| JsonRepair.CrossedClosers | src/alphaloop/ai/json_repair.py:71-82 | a text whose repair is badly nested |
| JsonRepair.UnchangedIffComplete | src/alphaloop/ai/json_repair.py:18-82 | left alone exactly if complete |
| JsonRepair.IdempotentIff | src/alphaloop/ai/json_repair.py:18-82 | repairing twice changes nothing more, unless the cut and stripped text ends in a colon or a space with only commas behind it and leaves nothing open |
| JsonRepair.RepairedTwice | src/alphaloop/ai/json_repair.py:74-82 | a text that is repaired twice |
| ReplayFunnel.Funnel.ReplayBar | scripts/replay_sim.py:163-341 | the counters move as for the first check that objects, and that check's stage is returned |
| ReplayFunnel.ReplayMode | scripts/replay_sim.py:556-561 | the counters after all bars of a mode |
| ReplayFunnel.BlockerMeaning | scripts/replay_sim.py:183-341 | a bar executes exactly if no check objects and is blocked by the first that does |
| ReplayFunnel.FiresMeaning | scripts/replay_sim.py:183-341 | what each of the 25 checks objects to, in shares and multiples of price, ATR and range |
| ReplayFunnel.StageMeaning | scripts/replay_sim.py:183-341 | the stages cut the order of the checks into nine runs |
| ReplayFunnel.BlockedByFirstObjection | scripts/replay_sim.py:183-341 | a bar executes exactly if nothing is objected to it, and is blocked by the first objection |
| ReplayFunnel.ReasonCounts | scripts/replay_sim.py:139-149 | each reason is counted at its own stage, once for every bar it blocks, and nowhere else |
| ReplayFunnel.FunnelConservation | scripts/replay_sim.py:139-341 | each stage passes on what it did not block (stage 9 only with the gate), reasons add up to blocks |
| ReplayFunnel.BlocksPlusExecutes | scripts/replay_sim.py:139-341 | blocks and executions add up to the bars |
| ReplayFunnel.StricterExecutesLess | scripts/replay_sim.py:101-134 | more filters or a higher AI bar never add an executed bar |
| ReplayFunnel.StricterCountsLess | scripts/replay_sim.py:101-134 | over a whole replay the stricter mode executes at most as many bars |
| ReplayFunnel.AlgoAiIsSubset | scripts/replay_sim.py:101-134 | what algo_ai executes, algo_only and ai_signal execute too |
| Conviction.ConvictionScorer.ScoreOf | src/alphaloop/pipeline/conviction.py:143-232 | penalties add up to min(raw sum, budget) in their original shares; the score is raw conviction less these, kept between 0 and the ceiling; TRADE exactly if it reaches the lower threshold and no floor is hit, at full size from the strong threshold on and 0.6 below |
| Conviction.NegativeBudgetRaises | src/alphaloop/pipeline/conviction.py:166-173 | a score that divides by zero |
| Conviction.Proration | src/alphaloop/pipeline/conviction.py:166-173 | scaling by budget over sum makes the parts add up to the budget and keeps their shares |
| Conviction.ConflictMeaning | src/alphaloop/pipeline/conviction.py:282-293 | nothing up to a widest gap of 40, 0.75 per point from there, 30 from a gap of 80 on |
| Conviction.PortfolioMeaning | src/alphaloop/pipeline/conviction.py:296-319 | 8 for a macro exposure, 20 less 5 per percent of budget left below three percent, capped at 25 |
| Conviction.ConflictGrowsWithSpread | src/alphaloop/pipeline/conviction.py:281-293 | the conflict penalty grows with the widest gap and stays in [0, 30] |
| Conviction.PortfolioAntitone | src/alphaloop/pipeline/conviction.py:295-319 | less budget or more exposure never lowers the portfolio penalty, which stays in [0, 25] |
| Conviction.HarsherNeverHelps | src/alphaloop/pipeline/conviction.py:175-232 | at fixed raw conviction neither score nor size rises with a penalty; the score lies in [0, ceiling] exactly if the ceiling is not negative |

## Left out

- MT5, HTTP, Telegram, news and AI calls: the broker is a set of positions with fresh tickets; a truthful snapshot is a hypothesis where it is needed, because `get_open_positions` returns an empty list on failure (src/alphaloop/execution/mt5_executor.py:408-410).
- ProtocolTheorems.OnlyForceRestarts: speaks of a restart under the same instance id; without `--instance-id` a start draws a fresh one (src/alphaloop/main.py:196) and sees only what `Startup.FreshIdSeesOnlyPositions` says.
- Positions of other instances: the broker filters positions by symbol and magic number, not by instance (src/alphaloop/execution/mt5_executor.py:387-406); the truthful snapshot of the protocol is taken per instance.
- Journal enforcement: `enforce_live_journal` is taken to be true, its default.
- Task cancellation: an await that is cancelled is covered only as a raised error or a crash.
- Dry runs: the three dry-run flags are taken to agree on live mode, so the fallback `_create_trade_log` is not reached.
- Clocks: all instances read one shared clock; skew between machines is not modelled.
- Ambiguous commits: a write either takes effect and succeeds, or fails without effect; a commit that succeeds while its acknowledgement is lost is covered only as a crash right after it.
- Fills without a ticket, and partial fills: the executor is taken to report a ticket with every success.
- Execution ids: one call at a time per instance id; order ids and the SHA-256 client ids are parameters, uniqueness of the client id is the database's.
- Incident and supervision records: writes to other tables after the decisive ones.
- Trade closing: outcomes WIN, LOSS and BE are one `TradeClosed`, entered only when the position is gone.
- HeartbeatLease.LeaseTable.AcquireLease: select, delete and insert are one atomic step, as the unique key enforces.
- ProtocolTheorems.LeaseSafety: counts from the clock reading stamped on the row, which is what the code compares, not from the commit.
- Recovery.OrderSession.UpdateStatus: the transition history and timestamps of the record are not kept.
- VbtEngine.Simulate: the skip counters, the session filter (it reads an unbound name), ADX and %B per bar (never available as series) and everything after the equity curve (the metrics block reads the same unbound name, src/alphaloop/backtester/vbt_engine.py:541).
- VbtPerformance.Settle: pip size and pip value are taken to be positive; profit in R is left out.
- BacktestEngine.Backtest: the signal function answers per bar and is not shown the prices; profit in R, timestamps and the database state; a missing signal function only returns an error text.
- Signal rules, confidence engine, strategy loading: functions supplied as parameters.
- Wilder.AdxArrays: the runner's RSI, EMA, %B and swing helpers are left out; they would only add easy members beside the indicators modelled here.
- Walk-forward, Sharpe, Sortino, optimisation search: statistics and library randomness.
- RateLimiter.AsyncRateLimiter.Acquire: waiting variants of the limiter only loop over it.
- ReplayFunnel.Funnel.ReplayBar: indicator values and the session score are read from the bar record.
- Conviction.ConvictionScorer.ScoreOf: weights, blending and calibration are inside the raw conviction; rounding for display is left out.
- Floating point: prices and money are exact reals.
- Dead-man switch, watchdog, alerts, metrics buckets, configuration merging, user interface: short branches that would only add easy members.

# Verified model of the trading bot's money, order and recovery logic

The bot trades one ticker through cycles: it enters, averages down with DCA
orders, takes profit, and closes the cycle with a report of the profit. This
project models, in Dafny, the parts where money or orders could be lost or
counted twice, and proves what holds over every run.

| files | what they model |
|---|---|
| `orders.dfy`, `broker_model.dfy`, `broker_proofs.dfy`, `broker_executions.dfy`, `paper_broker.dfy` | the simulated exchange `PaperBroker`: cash, locks, pending orders, the fill queue, cached prices |
| `bot_state.dfy`, `state_store.dfy`, `shared_row.dfy` | the persisted `BotState` row, its status machine, the versioned writes, many clients and the operator on one row |
| `fill_accounting.dfy`, `fill_outcomes.dfy` | the fill handlers and step 5 of a tick |
| `order_manager.dfy` | two-phase order placement |
| `close_protocol.dfy`, `close_proofs.dfy`, `close_runner.dfy` | the 13-step close protocol |
| `trading_system.dfy`, `ledger_steps.dfy`, `early_returns.dfy`, `two_ledgers.dfy`, `cycle_ledger.dfy`, `exit_orders.dfy`, `sample_cycle.dfy`, `closing_waits.dfy`, `bot_loop.dfy` | one bot on one broker: a tick collects, books, acts, or returns early; the ledgers of money, units and DCA orders; what each decision orders; one whole cycle; a cycle that never closes |
| `recovery_model.dfy`, `recovery_proofs.dfy`, `recovery_outcomes.dfy`, `recovery_averages.dfy`, `recovery_crashes.dfy`, `online_restart.dfy`, `recovery.dfy`, `entry_crash.dfy` | startup reconciliation against the online handlers, and crashes during placement, booking and recovery |
| `martingale_model.dfy`, `martingale_proofs.dfy`, `martingale.dfy` | the Martingale schedule, its lookup and its signals |
| `trailing_tp.dfy`, `watchdog.dfy` | the trailing take-profit and the data watchdog |

Objects whose methods update fields are classes. Each method is proved to
produce exactly the state that a function on values gives for the old state
(`Sim() == CreateOrder(..., old(Sim()), ...)`), and the lemmas about runs are
about these functions. History that the program does not keep (executions,
deliveries, rows by version) is ghost state or part of the model's world.

The files belong together; `dafny verify dfyconfig.toml` takes them all.

Conventions: `Decimal` is exact `real`; `quantize(ROUND_DOWN)` and `//` are floor;
database columns are lossless; ids drawn by `uuid4` are fresh and are parameters,
as are quotes, decisions, clock comparisons and the exchange's answers. Ids and
tickers are only compared, so a number stands for each text. `refused` maps the
orders whose cancellation is never confirmed to whether it reached the exchange.

## Behaviour found on the way

These are properties of the code that a reader of its documentation would not
expect; each is proved.

- The online handlers store an order id where recovery looks for a trade id. It
  does not cut the exchange's trades, and a TP's order id stays in the row after
  its fill, full or partial, whatever is booked after it: recovery books a TP fill
  again if the process stops before the order id is forgotten
  (`OnlineRestart.TpIsBookedTwice`). Entries and DCA fills are not booked again
  (`OnlineRestart.BookedAgainIff`, the exact condition; in money
  `OnlineRestart.RebooksTheRecorded`).
- An entry booked by its handler, with the process stopping before the row says
  IN_POSITION, is recovered to STOP_CRANE (`OnlineRestart.BookedEntryStops`).
- Recovery takes a position of dust to CLOSING, where the close protocol would
  report. Started over from there it goes IDLE instead, nothing is reported, and the
  old receipts are part of the next cycle's reported PnL
  (`RecoveryCrashes.CrashAfterClosing`, `TwoLedgers.CarriedReceiptsEnterTheNextReport`;
  the exact condition is `RecoveryCrashes.CrashAfterLastWriteIff`).
- After a crash between the two recovery writes, a partly filled DCA order is kept
  where an uninterrupted recovery would have dropped it
  (`RecoveryCrashes.PartialDcaSplitsTheRuns`, `RecoveryCrashes.CrashAfterFillsIff`).
- Ticks of a stopped bot, in STOP_CRANE, and under FORCE_CLOSE drain fills before
  they return. What they drain is lost to the books: all of it, except that a forced
  close still books the TP's fill (`EarlyReturns.ForcedKeeps`). A cycle's PnL is the
  broker's cash change exactly when nothing was lost this way
  (`TwoLedgers.CyclePnlIsCashChange`). Two ticks from the start lose a whole entry
  (`SampleCycle.StoppedTickLosesTheEntry`).
- The close protocol's docstring has an INCOMPLETE close run again on the next tick
  (`close_protocol.py:1-35`, `68-69`). The decision engine answers WAIT while a CLOSING
  position is above dust (`decision.py:452-472`), so no remainder mode and no timeout
  is looked at again: without FORCE_CLOSE the row changes if and only if a TP order is
  pending and the first bid to reach it comes while the bot is active
  (`ClosingWaits.ClosingMovesIff`). A DCA fill and the TP in one batch leave a rest
  with no order at all, which is never sold (`ClosingWaits.OneUnitIsLeft`).
- Steps 5-7 of the close protocol skip only the fill applied last. If a DCA
  execution follows the TP's in one batch, the TP is counted twice
  (`CloseProofs.DcaAfterTpIsCountedTwice`; the exact condition is
  `CloseProofs.SameTickExactlyOnceIff`). In the LAZY, market-DCA configuration
  PaperBroker never delivers such a batch (`LedgerSteps.EveryFillIsBooked`).
- `commit` accepts any version ahead of the old one, so a caller that skips a
  version overwrites a row it never saw (`SharedRow.CommitProtectsBaseIff`,
  `SharedRow.SkippingAheadLosesAnUpdate`). No caller in the repository does.
- A failed `get_open_orders` or `get_fills` is read as an empty list. Then a live
  entry order is forgotten (`EntryCrash.LiveOrderLostIff`), a filled one too, with the
  units it bought (`EntryCrash.FilledOrderLostIff`), and a TP that sold leaves its
  position in the row (`EntryCrash.UnreadSaleIsLost`).
- Recovery averages prices, the online handlers average costs including fees; and
  recovery stores no average once the position is gone, where the online handlers
  keep it (`RecoveryAverages.AverageAgreesIff`, the exact condition;
  `RecoveryAverages.SellSplitsTheAverages`, `RecoveryAverages.SoldOutForgetsTheAverage`).
- The finalisation after step 9 is never reached: step 9 only places orders, and
  it runs only with a position above dust (`CloseProofs.RemainderKeepsMoney`).
- `TRAILING_TP_PCT` has no upper bound in the schema; above 100 the trigger level
  falls when the mark rises (`TrailingTp.TriggerNeverFallsIff`).
- A watchdog restarted while stale forgets the spell without calling `on_recovered`;
  the next `on_stale` then follows another (`Watchdog.RestartRepeatsStale`; the exact
  condition is `Watchdog.DecisionsAlternateIff`).
- An entry fill that stays under the acceptance threshold is not booked at all
  (`FillAccounting.BookedExactlyIff`).

## Model

| member | source | states |
|---|---|---|
| PaperBrokerSim.PaperBroker.constructor | broker/paper_broker.py:90-132 | an account starts with all its cash free and nothing pending |
| PaperBrokerSim.PaperBroker.LockUsdt | broker/paper_broker.py:607-609 | moves the amount from free to locked, nothing else |
| PaperBrokerSim.PaperBroker.UnlockUsdt | broker/paper_broker.py:611-613 | moves the amount back, nothing else |
| PaperBrokerSim.PaperBroker.ExecuteFill | broker/paper_broker.py:521-591 | the whole new exchange state after one execution: lock released, cash moved with commission, price cached, one fill queued |
| PaperBrokerSim.PaperBroker.CheckAndExecuteLimits | broker/paper_broker.py:355-370 | exactly the orders triggered by the quote leave the book and execute, in book order, at their own limits; the lifecycle and delivery invariants stay |
| PaperBrokerSim.PaperBroker.TriggeredOrders | broker/paper_broker.py:357-361 | the loop finds all triggered orders, in book order |
| PaperBrokerSim.PaperBroker.ProcessMarketTick | broker/paper_broker.py:305-318 | the quote is cached before the limit check |
| PaperBrokerSim.PaperBroker.CreateOrder | broker/paper_broker.py:138-149 | accepts with a fresh id or refuses for the stated reason; a refused request changes nothing |
| PaperBrokerSim.PaperBroker.FillMarketOrder | broker/paper_broker.py:430-463 | a MARKET order executes at the cached price with slippage, or is refused without a price or funds |
| PaperBrokerSim.PaperBroker.MarketExecutionPrice | broker/paper_broker.py:601-605 | the cached ask raised, or the cached bid lowered, by the slippage |
| PaperBrokerSim.PaperBroker.PlaceLimitOrder | broker/paper_broker.py:465-497 | a LIMIT order is queued; a BUY locks its cost with commission or is refused |
| PaperBrokerSim.PaperBroker.CancelOrder | broker/paper_broker.py:151-167 | always answers True; an open order leaves the book with its lock and role, an unknown id changes nothing |
| PaperBrokerSim.PaperBroker.RegisterOrderRole | broker/paper_broker.py:320-340 | only the role map changes |
| PaperBrokerSim.PaperBroker.GetPendingFills | broker/paper_broker.py:229-282 | hands over the whole queue after the re-check, in order, and empties it |
| PaperBrokerSim.PaperBroker.QueuedEvents | broker/paper_broker.py:250-281 | one event per queued fill, with the registered role, an unknown role read as ENTRY |
| PaperBrokerSim.PaperBroker.ApplyDowntimeTpFill | broker/paper_broker.py:376-428 | the state after a TP fill played back at startup |
| PaperBrokerSim.PaperBroker.GetOpenOrders | broker/paper_broker.py:209-227 | lists the pending orders of the ticker, in book order |
| BrokerProofs.CashIsConserved | broker/paper_broker.py:521-547 | over every call sequence: free + locked is the initial balance plus the signed cashflow of every execution |
| BrokerExecutions.EveryFillIsCharged | broker/paper_broker.py:521-547 | over every call sequence: each execution, bought or sold, carries the commission on its quantity times its price |
| BrokerExecutions.EveryCallIs | broker/paper_broker.py:138-428 | over every call sequence, what the next call does: which requests are turned away, at which price a MARKET order executes, that a tick or a drain executes exactly the pending orders whose limit the quote reached, whole, at their own limit, in book order, what a cancellation and a playback leave, and which prices are cached |
| BrokerExecutions.DrainHandsOver | broker/paper_broker.py:229-282 | a drain hands over every execution since the last drain once, in order, as a full fill with its price, commission and registered role |
| BrokerExecutions.OpenOrdersIff | broker/paper_broker.py:209-227 | an order is listed if and only if it is pending and of the ticker asked for |
| BrokerProofs.OrdersAreExact | broker/paper_broker.py:151-167 | over every call sequence: an accepted order is in exactly one of pending, executed, cancelled; none executes twice; deliveries followed by the queue are the execution log in order |
| BrokerProofs.CancelledNeverFills | broker/paper_broker.py:151-167 | once cancelled, an order is never executed in any continuation |
| BrokerProofs.FundsAreSafe | broker/paper_broker.py:430-497 | over every call sequence with commission and slippage in [0,1]: free cash is not negative and locked cash is the sum of the open locks |
| BrokerProofs.CreateKeepsFunds | broker/paper_broker.py:430-497 | the fund check of both order types is enough to pay cost and commission |
| BrokerProofs.FireMoney | broker/paper_broker.py:521-547 | a triggered order pays with its own lock: free cash does not fall |
| BrokerProofs.CheckLimitsKeeps | broker/paper_broker.py:355-370 | what stays pending is exactly what the quote does not trigger; all invariants stay |
| BrokerProofs.CacheIsPessimistic | broker/paper_broker.py:313-318 | over every run whose playback precedes the ticks: the cached bid is never above, the cached ask never below the latest tick |
| BrokerProofs.PlaybackKeepsCacheIff | broker/paper_broker.py:376-428 | a playback keeps that bound if and only if no tick came yet or the played-back price is at most the tick's bid |
| BrokerProofs.LimitsFillWithinTheTick | broker/paper_broker.py:305-318 | over every run with playback at startup: what a tick or a drain executes from the pending LIMIT orders, the tick current after the call reached; before the first tick nothing is executed |
| BrokerProofs.RecheckFillsWithinTheTick | broker/paper_broker.py:246-248 | the re-check executes no order at a price the latest tick did not reach |
| BrokerProofs.OwnExecutionOnly | broker/paper_broker.py:138-149 | every other call executes nothing but its own MARKET order or played-back TP |
| BrokerProofs.DrainAfterTick | broker/paper_broker.py:229-282 | right after a tick the re-check triggers nothing, the drain is the queue, and no order is both open and in the drained events |
| BotStateModel.CommitFromCurrentRow | bot_state/state_manager.py:78-137 | a commit based on the current row succeeds if and only if the status step is legal and the invariants hold; it then stores the new state one version up |
| StateStore.StateRepository.Load | bot_state/state_repo.py:39-84 | answers the stored row |
| StateStore.StateRepository.Save | bot_state/state_repo.py:126-145 | overwrites the row only when it is one version behind, else raises a conflict and changes nothing |
| StateStore.StateManager.CheckInvariants | bot_state/state_manager.py:287-324 | accepts exactly the states without a negative quantity or balance |
| StateStore.StateManager.Commit | bot_state/state_manager.py:78-137 | the row and the answer after a commit: transition table, then invariants, then version |
| StateStore.StateManager.Transition | bot_state/state_manager.py:143-168 | the same for a transition; entering IDLE clears the closing reason |
| StateStore.StateManager.Update | bot_state/state_manager.py:203-221 | the same for an update, which keeps the status |
| SharedRow.HistoryIsLinear | bot_state/state_fsm.py:21-85 | for every interleaving of clients and operator: versions count the writes, every held state once was the row, each consecutive pair of rows is a legal step or an operator reset out of STOP_CRANE |
| SharedRow.RowsAreInOrder | bot_state/state_fsm.py:21-85 | for every interleaving: no stored row has a negative quantity or balance, and statuses follow one another in the documented order, STOP_CRANE and the reset apart |
| SharedRow.AcceptedIff | bot_state/state_manager.py:78-137 | a commit from the current row is accepted if and only if the step is in that order and nothing is negative |
| SharedRow.NoLostUpdates | bot_state/state_repo.py:255-287 | a write succeeds only on the row its author started from and then adds one version; a failed write changes nothing |
| SharedRow.WriteReplacesItsBase | bot_state/state_manager.py:116-137 | the version check identifies the base row itself, not only its number |
| SharedRow.CommitProtectsBaseIff | bot_state/state_manager.py:116-137 | a successful commit replaced its own base if and only if the new state was at most one version ahead |
| SharedRow.SkippingAheadLosesAnUpdate | bot_state/state_manager.py:125-137 | a concrete two-version jump that wipes out another client's update |
| SharedRow.StopCraneAbsorbs | bot_state/state_fsm.py:42-45 | no sequence of writes by any number of clients leaves STOP_CRANE |
| SharedRow.OperatorResetIsSafe | cli.py:318-362 | the unversioned reset acts on a STOP_CRANE row, and every later write from a state held before it is rejected |
| FillAccounting.BookedExactlyIff | business_logic/partial_fill.py:66-141 | an event is booked with exactly the money it moved if and only if it is a TP or DCA event, or an accepted entry on empty books, or an unaccepted one that moved none |
| FillOutcomes.EntryEvent | business_logic/partial_fill.py:66-141 | the row after an entry event: from the threshold on the position with its price, cost and cycle id; below it IDLE, or an exception when the remainder cannot be cancelled |
| FillOutcomes.DcaEvent | business_logic/partial_fill.py:147-226 | the row after a DCA event: quantity, cost average, spending, count and ids |
| FillOutcomes.TpEvent | business_logic/partial_fill.py:232-300 | the row after a TP event: quantity not below zero, receipts net of commission, CLOSING with its reason from the threshold on |
| FillOutcomes.SharePercent | business_logic/types.py:73-79 | the filled share is the percentage rounded to the nearest hundredth, ties to even |
| FillOutcomes.RemainderIsCancelled | business_logic/partial_fill.py:66-226 | the remainder of a partial entry or DCA order, and nothing else, leaves the book unless its cancellation does not get through; a TP's stays |
| FillOutcomes.BatchCountsDca | business_logic/partial_fill.py:200-210 | over every batch booked without error the row's DCA count grows by the DCA executions in it |
| FillAccounting.DcaAverageIsCost | business_logic/partial_fill.py:183-210 | after a DCA fill average times quantity is everything spent, fees included |
| FillAccounting.FullFillsCancelNothing | business_logic/partial_fill.py:66-141 | a batch of full fills leaves the exchange alone |
| PartialFills.PartialFillHandler.HandleEntryFill | business_logic/partial_fill.py:66-141 | the exchange after the remainder was cancelled, the row, the answer and whether the entry was accepted: a failed cancellation is ignored after acceptance and raises before rejection |
| PartialFills.PartialFillHandler.AcceptEntry | business_logic/partial_fill.py:306-339 | the row after an accepted entry |
| PartialFills.PartialFillHandler.HandleDcaFill | business_logic/partial_fill.py:147-226 | the remainder of a partial order is cancelled first, whatever the answer; the row after the fill; other statuses write nothing |
| PartialFills.PartialFillHandler.BookDca | business_logic/partial_fill.py:182-210 | the row after a DCA fill |
| PartialFills.PartialFillHandler.HandleTpFill | business_logic/partial_fill.py:232-300 | the row after a TP fill and whether to close |
| PartialFills.PartialFillHandler.ApplySingleFill | business_logic/bot_loop.py:426-471 | dispatch by role with the status change that follows |
| PartialFills.PartialFillHandler.ApplyOrderEvents | business_logic/bot_loop.py:394-424 | exchange and row after the whole batch; the first error abandons the rest |
| OrderManagement.OrderManager.PlaceOrder | business_logic/order_manager.py:90-162 | the broker, the row and the answer after both phases or after a refusal in between |
| ExitOrders.PlacedOrTurnedAway | business_logic/order_manager.py:90-162 | what is sent and recorded for each role: side, type, quantity, price and ids, or the client id alone when the broker turns the order away |
| OrderManagement.OrderManager.PlaceTpOrder | business_logic/order_manager.py:164-239 | a recorded TP is not doubled, otherwise as above |
| OrderManagement.OrderManager.CancelOrder | business_logic/order_manager.py:306-362 | exhausted retries raise, whether or not one reached the broker; otherwise the order is cancelled |
| CloseRunner.Runner.CancelDca | business_logic/close_protocol.py:158-180 | steps 1-4 over the live broker and row |
| CloseRunner.Runner.CancelEach | business_logic/close_protocol.py:170-173 | orders before the first unconfirmed one are cancelled, later ones are not touched |
| CloseRunner.Runner.ApplyFills | business_logic/close_protocol.py:186-230 | steps 5-7: the row after every TP event not applied last |
| CloseRunner.Runner.SellRemainder | business_logic/close_protocol.py:412-486 | the old TP is cancelled and a sell of the remainder placed at the bid |
| CloseRunner.Runner.HandleRemainder | business_logic/close_protocol.py:236-282 | step 9 for every closing reason and mode |
| CloseRunner.Runner.Finalize | business_logic/close_protocol.py:492-566 | steps 11-13: checklist, reset, report |
| CloseRunner.Runner.Run | business_logic/close_protocol.py:101-152 | the whole protocol over the live broker and row |
| CloseProofs.ReappliesNothingIff | business_logic/close_protocol.py:195-230 | steps 5-7 leave the row alone if and only if every executed TP event carries the id applied last |
| CloseProofs.SameTickExactlyOnceIff | business_logic/close_protocol.py:195-230 | after the batch was booked nothing is booked again if and only if every executed event of the TP order has the id of the batch's last event |
| CloseProofs.DcaAfterTpIsCountedTwice | business_logic/close_protocol.py:195-230 | the input family on which the TP's proceeds are counted twice |
| CloseProofs.SettleOutcome | business_logic/close_protocol.py:127-133 | steps 1-7 succeed if and only if every DCA cancellation is confirmed, and touch only position, receipts, DCA list and last id; the position never grows |
| CloseProofs.CancelAllEffect | business_logic/close_protocol.py:158-180 | cancellation succeeds if and only if no id is refused, and executes nothing |
| CloseProofs.RemainderKeepsMoney | business_logic/close_protocol.py:236-282 | step 9 changes neither position, money nor status |
| ExitOrders.RemainderAsDue | business_logic/close_protocol.py:236-486 | step 9: when the rest is sold, what the slippage limits do to a stop-loss and to the other reasons, and that what is sold is the whole position at the bid |
| ExitOrders.ClosesAsDecided | business_logic/bot_loop.py:640-760 | a close goes CLOSING with its reason, settles, and leaves a position above dust to step 9 under the mode given |
| ExitOrders.ForceCloseSells | business_logic/bot_loop.py:761-796 | the FORCE_CLOSE command does so with its own reason and the market mode, whatever is configured |
| CloseProofs.FinishOutcome | business_logic/close_protocol.py:568-625 | with dust and no DCA ids the cycle is finalised if and only if no open order blocks |
| CloseProofs.CloseRunOutcome | business_logic/close_protocol.py:101-152 | the run finalises if and only if cancellations are confirmed, the settled position is dust and no order of the ticker is open; it then reports the settled PnL and resets everything to IDLE; otherwise CLOSING stays, a normal return means a position above dust, and no path raises the position |
| BotLoopTick.BotLoop.RunTick | business_logic/bot_loop.py:319-388 | one tick over the live objects computes the tick of the system model, the early returns on STOPPED, FORCE_CLOSE and STOP_CRANE included |
| BotLoopTick.BotLoop.Collect | business_logic/tick_context.py:191-242 | the snapshot: price to the broker, open orders, drained fills, then the row |
| BotLoopTick.BotLoop.ForceCloseNow | business_logic/bot_loop.py:761-796 | CLOSING with its reason, then the protocol with the mode overridden for this run only |
| BotLoopTick.BotLoop.Execute | business_logic/bot_loop.py:477-796 | the effect of each decision on broker and row |
| ExitOrders.EveryDecisionIs | business_logic/bot_loop.py:477-796 | the effect of every decision on exchange and row, from every state a run can act on; a take-profit is always for the whole position |
| ExitOrders.TickDecides | business_logic/bot_loop.py:319-388 | a tick that is not cut short books the drained fills without error and then does what was decided on the booked row; a decision the state does not allow does nothing |
| ExitOrders.SnapshotIs | business_logic/tick_context.py:191-242 | the protocol sees the tick's bid, the orders pending after it, and the TP events of the order recorded when it began |
| LedgerSteps.CollectConserves | business_logic/tick_context.py:191-204 | collecting the snapshot moves money only into the fills it hands over |
| LedgerSteps.BookBatch | business_logic/bot_loop.py:394-471 | the drained batch is booked without error, with exactly its money, and leaves steps 5-7 nothing to book |
| LedgerSteps.PlaceKeeps | business_logic/order_manager.py:90-162 | placing an order keeps the books, counting what executes at once as unseen |
| LedgerSteps.CloseKeeps | business_logic/close_protocol.py:503-545 | an unfinished close keeps the books; a finished one pays them out with nothing outstanding |
| LedgerSteps.EveryFillIsBooked | business_logic/bot_loop.py:394-471 | from every reachable state each drained fill is booked once, with its money, without an exception |
| EarlyReturns.DropKeeps | business_logic/bot_loop.py:325-342 | a tick that returns at once loses exactly the money of the fills it drained, and leaves nothing else behind |
| EarlyReturns.ForcedKeeps | business_logic/bot_loop.py:331-333 | a forced close before step 5 books the TP's fill and loses exactly the rest; when a DCA cancellation is not confirmed it loses all |
| EarlyReturns.QuietTicks | business_logic/bot_loop.py:325-342 | a stopped or halted bot changes nothing but the drained queue |
| EarlyReturns.ForceCloseOfNothing | business_logic/bot_loop.py:331-333 | FORCE_CLOSE without a position is an ordinary tick |
| TwoLedgers.TickKeepsLedgers | business_logic/bot_loop.py:319-388 | one tick, with any command and any decision, keeps the ledgers together; a tick that reports ends IDLE with clean quotes, any other hands on what an earlier cycle left in them |
| TwoLedgers.RunKeepsLedgers | business_logic/close_protocol.py:503-545 | the same over every run from any row, also one that carries quotes of an earlier cycle (with a carried quote_spent, while no kill switch comes): they stay as they are until the first report and are zero between cycles from then on |
| TwoLedgers.LedgersNeverDrift | business_logic/partial_fill.py:248-261 | at every point of every run: broker cash = initial balance + reported PnL + received - spent + executions not yet seen + executions drained by ticks that returned early |
| TwoLedgers.OrdinaryRunsDropNothing | business_logic/bot_loop.py:325-342 | while the bot is active and not halted that last term is zero |
| TwoLedgers.IdleIsPaidOut | business_logic/close_protocol.py:521-545 | in IDLE no order or fill is outstanding and broker cash is the initial balance plus all reported PnL, lost fills and the receipts the row carries, which are zero in a run from the start |
| TwoLedgers.ReportedPnlIsCashChange | business_logic/close_protocol.py:503-545 | between any two IDLE points the reported PnL plus the lost fills is the broker's cash change |
| TwoLedgers.CyclePnlIsCashChange | business_logic/close_protocol.py:503-545 | the PnL of one CYCLE_CLOSED is the broker's cash change over that cycle if and only if no fill was lost in between |
| TwoLedgers.OrdinaryCyclePnl | business_logic/close_protocol.py:503-545 | so it is for an active bot that is not halted |
| TwoLedgers.CarriedReceiptsEnterTheNextReport | business_logic/close_protocol.py:503-545 | from an IDLE row with receipts left in it, over every run to the next report: the PnL is the broker's cash change, less the lost fills, plus those receipts |
| CycleLedger.RowsAreOk | business_logic/bot_loop.py:319-388 | over every run: an IDLE or ENTERING row has nothing left of an earlier cycle, a cycle under way has its id, and the pending TP never exceeds the position |
| CycleLedger.UnitsAreExact | business_logic/bot_loop.py:319-388 | while the bot is active and not halted and no cycle is finalised: the position changes by exactly the units the handed-over fills bought and sold, and the DCA orders placed are those counted in the row or still queued |
| CycleLedger.CycleEndsFlat | business_logic/close_protocol.py:101-152 | over one cycle, from IDLE to its report, the broker bought at least what it sold and at most dust more |
| CycleLedger.DcaCountIsBooked | business_logic/partial_fill.py:200-210 | over every run without a finalised cycle the row's DCA count grows by exactly the DCA executions booked |
| CycleLedger.DcaOrdersAreLimited | business_logic/decision.py:515-571 | over every run with the engine's LAZY decisions: the DCA orders booked and queued stay within MAX_DCA_COUNT |
| CycleLedger.CycleDcaLimit | business_logic/decision.py:515-571 | hence at most MAX_DCA_COUNT DCA orders are placed in a cycle of an active bot that is not halted |
| CycleLedger.OneIdPerCycle | business_logic/bot_loop.py:426-471 | a cycle keeps one id until it is IDLE again |
| SampleCycle.OneCycle | business_logic/bot_loop.py:319-388 | from any balance that can pay, buying one unit at a and leaving at b, with any fresh ids, is a chain of three admissible ticks that reports b - a, ends IDLE and changes the broker's cash by b - a |
| SampleCycle.StoppedTickLosesTheEntry | business_logic/bot_loop.py:325-328 | from the start, an entry at price a and then a tick of the stopped bot: the cash is gone, the row still ENTERING with nothing bought, and a is lost |
| ClosingWaits.ClosingMovesIff | business_logic/decision.py:452-472 | over every run of the engine's decisions from a reachable CLOSING state above dust: the row ever changes if and only if a TP order is pending and the first tick whose bid reaches its price is one of an active bot; otherwise nothing is reported |
| ClosingWaits.DcaAndTpLeaveARest | business_logic/bot_loop.py:394-471 | a DCA fill and the TP drained together end in such a state: CLOSING with exactly what the DCA bought and no order pending |
| ClosingWaits.RestIsNeverSold | business_logic/decision.py:452-472 | without a pending order no run of the engine's decisions changes the row or reports |
| ClosingWaits.OneUnitIsLeft | business_logic/close_protocol.py:101-152 | a run of four ticks from the start that gets there: two units bought, one sold by the TP, the other still in the row after every later run |
| Recovery.StateRecovery.ReconcileEntering | bot_state/state_recovery.py:443-503 | the row for each of the entry order's fates |
| Recovery.StateRecovery.ReconcilePendingSend | bot_state/state_recovery.py:505-550 | the same when only the client id was stored |
| Recovery.StateRecovery.ApplyEntryFill | bot_state/state_recovery.py:552-596 | the row after a recovered entry fill |
| Recovery.StateRecovery.ApplyPositionFills | bot_state/state_recovery.py:935-1025 | the row after replaying the sorted trades, and the DCA orders reported filled |
| Recovery.StateRecovery.CleanIds | bot_state/state_recovery.py:628-674 | the row after forgetting ids that left the book |
| Recovery.StateRecovery.SurvivingIds | bot_state/state_recovery.py:655-674 | the DCA ids that are listed and did not trade, in order |
| Recovery.StateRecovery.ReconcileInPosition | bot_state/state_recovery.py:602-694 | fills, then ids, then CLOSING for dust |
| Recovery.StateRecovery.ReconcileWaiting | bot_state/state_recovery.py:879-929 | the order of writes out of WAITING_FOR_LIQUIDITY |
| Recovery.StateRecovery.ReconcileClosing | bot_state/state_recovery.py:824-873 | dust goes IDLE with order ids cleared, a lost TP is forgotten |
| Recovery.StateRecovery.Reconcile | bot_state/state_recovery.py:276-375 | dispatch by status; any error ends in STOP_CRANE if the row allows it |
| RecoveryProofs.SortsByTime | bot_state/state_recovery.py:974 | the replay order is chronological and a permutation of the trades |
| RecoveryOutcomes.FirstTradeIsFound | bot_state/state_recovery.py:443-550 | the entry is booked by the first trade that carries its order or client id |
| RecoveryOutcomes.LastOrderIsFound | bot_state/state_recovery.py:505-550 | of several open orders with the client id the last one is taken |
| RecoveryOutcomes.SortIsStable | bot_state/state_recovery.py:974 | trades of one time are replayed in the order they arrived in |
| RecoveryOutcomes.TradeIsReplayed | bot_state/state_recovery.py:976-1012 | what each trade of the replay moves: a buy of a recorded entry or DCA order, a sale of the recorded TP, anything else nothing |
| RecoveryOutcomes.RecoveredRow | bot_state/state_recovery.py:602-929 | status and order ids after recovery for every status with a position and every position left: which ids are kept, when the cycle goes CLOSING or IDLE |
| RecoveryOutcomes.UnrecoveredRow | bot_state/state_recovery.py:276-375 | IDLE and STOP_CRANE rows are left alone; fills that would leave a negative quantity halt the bot |
| RecoveryProofs.ReplayReports | bot_state/state_recovery.py:974-1012 | the replay reports a change if and only if a trade matched, and exactly the DCA orders that traded |
| RecoveryProofs.ReplayRefinesOnline | bot_state/state_recovery.py:974-1012 | for every list of trades the replay gives the quantity, spent and received of the online handlers fed one by one |
| RecoveryProofs.RecoveredBooksAreOnlineBooks | bot_state/state_recovery.py:935-1025 | hence the row recovery writes carries the online books, whatever order the trades arrived in |
| RecoveryAverages.AverageAgreesOnDrift | bot_state/state_recovery.py:982-1004 | for any row and trades with a buy: the replay loop's running average is the online one if and only if the position was worth what was spent plus the fees paid and the quantities sold at average up to the last buy |
| RecoveryAverages.LoopAverageAgreesIff | bot_state/state_recovery.py:982-1004 | the running average of the replay loop, before the row is written: it is the online one if and only if the position was booked at cost and, up to the last buy, no buy paid a fee and no sell met a position; without a buy, if and only if the row had an average |
| RecoveryAverages.AverageAgreesIff | bot_state/state_recovery.py:935-1025 | the average in the row recovery writes, for rows the online handlers leave and priced trades in any arrival order: it is the online one if and only if no trade matched; or one bought, a position is left, it was booked at cost and, up to the last buy, no buy paid a fee and no sell met a position; or none bought, and a position is left or there was no average |
| RecoveryAverages.SoldOutForgetsTheAverage | bot_state/state_recovery.py:1014-1021 | a sell of the whole position leaves no average in the recovered row and some average online |
| RecoveryAverages.HandlersKeepPriced | business_logic/partial_fill.py:183-261 | the online handlers leave no other rows: priced, and worth no more than was spent |
| RecoveryAverages.FreeBuysKeepOneAverage | business_logic/partial_fill.py:183-195 | without sells and fees a position booked at cost keeps the same average on both ways |
| RecoveryAverages.SellSplitsTheAverages | bot_state/state_recovery.py:982-1004 | a sell before a buy splits the averages even without fees |
| RecoveryCrashes.RerunReplaysNothing | bot_state/state_recovery.py:381-426 | after the fill write the next recovery matches no trade of the tape |
| RecoveryCrashes.CrashAfterFillsIff | bot_state/state_recovery.py:602-694 | a crash after the fill write is harmless, versions aside, if and only if the DCA clean-up is not reached or no recorded DCA order both traded since the last write and is still open |
| RecoveryCrashes.PartialDcaSplitsTheRuns | bot_state/state_recovery.py:655-676 | the smallest exchange where it is not: the run that saw the fill forgets the order, the rerun keeps it |
| RecoveryCrashes.CrashAfterCleanup | bot_state/state_recovery.py:620-678 | a crash after the id clean-up ends in the very row of an uninterrupted recovery |
| RecoveryCrashes.CrashAfterLastWriteIff | bot_state/state_recovery.py:678-694 | recovery started over from where it ended stays there if and only if the replayed position is above dust or the row was CLOSING already |
| RecoveryCrashes.CrashAfterClosing | bot_state/state_recovery.py:824-873 | in the dust case it ends IDLE, with the ids cleared, every book of the cycle still in the row and nothing reported |
| RecoveryCrashes.OldReceiptsReachTheNextCycle | business_logic/partial_fill.py:306-339 | an entry accepted on such a row overwrites what was spent and starts from the old receipts |
| OnlineRestart.RecoveredCash | bot_state/state_recovery.py:974-1025 | recovery books exactly the money of the matched trades, in whatever order they arrive |
| OnlineRestart.BothCrashPoints | business_logic/bot_loop.py:408-471 | for full and partial fills, after the handler's write and after the status write: an entry's and a DCA's order id is forgotten, a TP's stays, a booked fill is stored as the last one; the handler fails only on a broken row or an unconfirmed cancellation |
| OnlineRestart.BatchForgets | business_logic/bot_loop.py:394-424 | over any batch: the row ends with a part of the ids it started with, without those of executed entry and DCA events, and with the same TP id |
| OnlineRestart.BookedAgainIff | bot_state/state_recovery.py:408-413 | for every row after the booking, whatever was booked before or since, and every tape: recovery matches the trade again if and only if it was a TP's and the stored id does not cut it from the tape |
| OnlineRestart.BooksItsCashAgain | bot_state/state_recovery.py:974-1025 | against the same exchange without the trade it then books the trade's whole proceeds a second time, and nothing for entries and DCA orders |
| OnlineRestart.RebooksTheRecorded | bot_state/state_recovery.py:935-1025 | for any row, tape and set of trades booked earlier: recovery adds the money of the new trades and, once more, of the earlier ones the stored id does not cut; only trades whose order or client id is still recorded carry any |
| OnlineRestart.OrderIdCutsNothing | broker/broker.py:227-247 | an order id that is no trade id leaves the tape whole |
| OnlineRestart.TpIsBookedTwice | business_logic/bot_loop.py:451-471 | a TP fill booked before a crash ends with its proceeds counted twice and its quantity subtracted twice |
| OnlineRestart.BookedEntryStops | bot_state/state_recovery.py:443-503 | an entry booked before a crash ends in STOP_CRANE with the position in the row |
| EntryCrash.RowsOfPlacement | business_logic/bot_loop.py:553-570 | the rows at the crash points are those two-phase placement writes |
| EntryCrash.CrashSafeEntry | bot_state/state_recovery.py:443-596 | for every crash point and every fate of the entry order: the status recovery ends in, the exchange id of a live order, quantity, average price and cost of a filled one |
| EntryCrash.NoOrderForgotten | bot_state/state_recovery.py:443-503 | recovery ends IDLE only when the order is neither open nor filled |
| EntryCrash.LiveOrderLostIff | bot_state/state_recovery.py:381-426 | a recorded live order is forgotten if and only if the open orders were not read |
| EntryCrash.FilledOrderLostIff | bot_state/state_recovery.py:381-426 | a recorded order that filled is forgotten, the row going IDLE, if and only if the trades were not read |
| EntryCrash.UnreadSaleIsLost | bot_state/state_recovery.py:381-426 | a TP that sold is forgotten either way; its quantity and proceeds are booked if and only if the trades were read |
| MartingaleStrategy.BuildSchedule | strategies/martingale_dca.py:299-360 | the loop builds the schedule level by level, stopping at dust |
| MartingaleStrategy.Strategy.Enter | strategies/martingale_dca.py:139-195 | the entry signal and the stored schedule; an order of dust enters nothing |
| MartingaleStrategy.Strategy.Evaluate | strategies/martingale_dca.py:97-130 | the signal and the stored schedule for every position; with a position the target is never below it |
| MartingaleProofs.ScheduleShape | strategies/martingale_dca.py:329-358 | with a multiplier of at least one the loop never truncates; quantities do not shrink, cumulative quantities grow and averages fall strictly, triggers do not rise and lie below their averages |
| MartingaleProofs.ScheduleForShape | bot_config/strategy_schemas.py:255-304 | the schema bounds imply all of that for every schedule the strategy builds |
| MartingaleProofs.ScheduleInNumbers | strategies/martingale_dca.py:299-360 | for every schedule built: each trigger is the drop from the average before it, each quantity the one before times the multiplier, the first the invested amount at the entry price, each rounded down by less than one step |
| MartingaleProofs.EntersIff | strategies/martingale_dca.py:139-195 | the strategy enters if and only if the invested amount buys two lots, with that quantity, price and take-profit |
| MartingaleProofs.AverageTimesQty | strategies/martingale_dca.py:340-358 | average times cumulative quantity is the sum of the order costs |
| MartingaleProofs.TpPaysTheLevels | strategies/martingale_dca.py:393-398 | selling what the levels up to one bought at that level's take-profit brings back their cost and the profit, up to one price step a unit |
| MartingaleProofs.FindLevelIff | strategies/martingale_dca.py:367-387 | level k is found if and only if the quantity lies from 0.99 of its cumulative quantity up to 0.99 of the next |
| MartingaleProofs.SignalInNumbers | strategies/martingale_dca.py:222-283 | in position: the take-profit is the found level's average plus the profit, and the next level's quantity is asked for if and only if the price is down to its trigger |
| MartingaleProofs.HoldInNumbers | strategies/martingale_dca.py:213-230 | without a schedule: hold, with the take-profit above the current price |
| MartingaleProofs.PlacesIff | business_logic/decision.py:515-571 | a DCA order is placed if and only if a next level exists, the price is down to its trigger and the count is below the limit; its quantity is what is missing to that level |
| MartingaleProofs.LevelRoundTrip | strategies/martingale_dca.py:367-387 | looking up a level's own cumulative quantity gives back the level, for up to 99 levels |
| MartingaleProofs.HundredLevelsConfuse | strategies/martingale_dca.py:367-387 | 99 is sharp: with 100 equal orders the lookup is off by one |
| MartingaleProofs.NeverAsksToShrink | business_logic/decision.py:531-571 | the target is never below the position, so the negative-delta branch is never taken |
| MartingaleProofs.DcaAdvancesOneLevel | strategies/martingale_dca.py:222-283 | a DCA order, filled, climbs exactly one level |
| MartingaleProofs.OrdersAreLevelsClimbed | business_logic/decision.py:515-571 | over every price path the number of DCA orders is the number of levels climbed, within both limits |
| MartingaleProofs.QtyBounded | strategies/martingale_dca.py:329-338 | rounded quantities stay within the geometric progression |
| MartingaleProofs.ExposureBounded | strategies/martingale_dca.py:151-169 | when all levels fill at their triggers the cost is at most INVEST_AMOUNT (1 + (1 - DROP/100) sum of MULT^i), despite all roundings |
| TrailingTp.TrailingStop.Check | business_logic/bot_loop.py:916-998 | the new mark and whether the tick closes the position |
| TrailingTp.TrailingStop.Reset | business_logic/bot_loop.py:550-551 | a new cycle starts without a mark |
| TrailingTp.MarkIsHighestBid | business_logic/bot_loop.py:959-963 | the stored mark is the maximum of all bids since the reset |
| TrailingTp.MarkMovesIff | business_logic/bot_loop.py:939-963 | a tick moves the mark if and only if trailing is on with a positive distance, the average is positive and the bid is the first or a new high; switched off, nothing fires |
| TrailingTp.FiresIff | business_logic/bot_loop.py:965-987 | a tick fires if and only if the highest bid h satisfies h(1-t) > avg(1+tp) and the bid is down to h(1-t) |
| TrailingTp.FiresAfterProfit | business_logic/bot_loop.py:965-987 | nothing fires unless an earlier bid of the cycle was above avg(1+tp) |
| TrailingTp.NewHighNeverFires | business_logic/bot_loop.py:961-987 | a tick that sets a new high never fires |
| TrailingTp.TriggerNeverFallsIff | bot_config/strategy_schemas.py:177-184 | the trigger level never falls along a cycle if and only if the distance is at most 100 % or no new high comes |
| Watchdog.WatchdogTimer.ReportData | market_data/watchdog.py:83-101 | an update stores the time and answers whether a stale spell ended |
| Watchdog.WatchdogTimer.CheckFreshness | market_data/watchdog.py:182-201 | a check stores staleness and answers whether it is new |
| Watchdog.WatchdogTimer.Start | market_data/watchdog.py:103-116 | a start resets time and flag and calls nobody |
| Watchdog.SpellsTakeTurns | market_data/watchdog.py:182-201 | over every interleaving of updates and restarts with the checker: stale spells begin and end in turn, and the flag says whether one is on |
| Watchdog.DecisionsAlternateIff | market_data/watchdog.py:103-116 | the callbacks strictly alternate, starting with stale, if and only if no decision follows a spell that a restart had forgotten |
| Watchdog.RestartRepeatsStale | market_data/watchdog.py:103-116 | a concrete schedule with a restart in which on_stale runs twice in a row |
| Watchdog.DecisionsAlternate | market_data/watchdog.py:182-201 | without restarts every decision is a callback and they strictly alternate |
| Watchdog.StaleMeansNoRecentUpdate | market_data/watchdog.py:182-190 | stale is decided only if no update at all lies within the threshold of the clock value read, not even one between the reading and the lock |
| Watchdog.StaleIff | market_data/watchdog.py:182-201 | a check decides stale if and only if no spell is on and no update lies within the threshold of the clock value read |
| Watchdog.RecoversIff | market_data/watchdog.py:83-116 | an update decides recovered, and a restart forgets, if and only if a spell is on |
| Watchdog.OnlyUpdatesRecover | market_data/watchdog.py:83-101 | a check never ends a stale spell |

## Left out

- TwoLedgers.LedgersNeverDrift: covers LAZY mode with DCA at market, as the Martingale strategy asks for it; with EAGER grids or LIMIT DCA orders a batch can hold a DCA execution after the TP's, which steps 5-7 count twice.
- TwoLedgers.TickKeepsLedgers: decisions are any the status allows, a superset of what the decision engine picks; after STOP_CRANE the operator's reset is not part of the run. A kill switch in IDLE or ENTERING is covered for rows that carry no quote_spent of an earlier cycle, as all rows of runs from the start.
- CycleLedger.UnitsAreExact: ticks that return early are left out; what they drop is the subject of `EarlyReturns.DropKeeps`.
- ClosingWaits.ClosingMovesIff: the engine's decision is modelled for CLOSING only; in other states any offered decision may be taken.
- BotLoopTick.BotLoop.RunTick: the strategy and the decision engine are the input `action`; the SL and trailing closes are `Close` with their reason, CLOSE_ONLY narrows the decisions.
- BotLoopTick.BotLoop.Execute: EAGER DCA placement is not modelled; the insufficient-funds handlers, which would move to WAITING_FOR_LIQUIDITY and later retry, commit from a state older than the phase-1 write and are rejected by the version check, so the run models the refusal without them.
- OrderManagement.OrderManager.PlaceOrder: a send is accepted or refused; retries, back-off and a timeout with unknown outcome are left out. PaperBroker always answers; for other exchanges a crash after an unanswered send is a crash point of `EntryCrash.CrashSafeEntry`.
- OrderManagement.OrderManager.CancelOrder: retries and back-off are reduced to the final answer; `OrderManager` reads a `confirmed` field where PaperBroker returns a bool, and the model has the outcome only.
- EntryCrash.CrashSafeEntry: for the entry order only, with one historical trade for it; a pending TP or DCA send is matched by recovery as an entry buy, and a multi-trade entry is booked by its first trade.
- RecoveryProofs.ReplayRefinesOnline: no trade carries the recorded entry id or pending client id, which the replay reads as buys of an entry; both ids may be recorded, as after a refused TP or DCA placement.
- RecoveryCrashes.RerunReplaysNothing: the tape is chronological with distinct trade ids, and this is about rows written by recovery; rows written by the online handlers are the subject of `OnlineRestart.BookedAgainIff`.
- OnlineRestart.BookedAgainIff: the trade's order id is recorded in the slot of its own role only; PaperBroker's own trade history is always empty, so only exchanges with a history replay anything.
- Recovery.StateRecovery.ReconcileInPosition: for brokers without OHLCV playback; candles are not fetched, and a TP that left the book is forgotten.
- Recovery.StateRecovery.Reconcile: the same.
- CloseRunner.Runner.HandleRemainder: the age comparison of LIMIT_WITH_TIMEOUT is the input `timedOut`; no write path modelled here sets the order time.
- BrokerProofs.CacheIsPessimistic: playback happens at startup, before the first tick; the exact condition for one at another time is `BrokerProofs.PlaybackKeepsCacheIff`.
- MartingaleProofs.OrdersAreLevelsClimbed: DCA orders fill exactly; a schedule rebuilt while a slow entry order is open is not tied to that order.
- SharedRow.OperatorResetIsSafe: a single operator; two concurrent resets are not modelled.
- Timestamps (`updated_at`, `entered_at`, `last_order_at`), the constant user and bot ids, and time-based timeouts.
- `transition_in_transaction` and `save_in_transaction`, which leave the row count to the caller.
- Decimal precision and overflow, database encoding, the string rendering of statuses.
- BybitBroker and its tracker: network clients; they implement neither `get_pending_fills` nor `get_fills`, so no tick runs on them.
- MeanReversionStrategy: floating-point indicators with a fixed order quantity.
- OrderNormalizer, RetryManager, HeartbeatEmitter, BalanceReconciler, event sinks, logging, and the command line apart from the STOP_CRANE reset: they hold no money, order or cycle state.

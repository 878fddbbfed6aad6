# Verified model of the order-execution core

This project models the execution core of the trading engine in Dafny and proves what its parts promise each other.
`dafny verify dfyconfig.toml` checks everything.

## What is modelled

**Order manager.** One thread takes events from a queue and handles each to the end. The records it keeps in agreement
are the two-way id mapper (`OrderIdMapper.dfy`), the orders table (`OrderStore.dfy`), the positions
(`PositionKeeper.dfy`), the open-order counter and the risk gate (`RiskManager.dfy`); ids come from `IdGenerator.dfy`.
`OrderManager.dfy` says, as functions, what each handler does to all records; `Dispatcher.dfy` is the object whose
methods change them step by step and are proved to leave exactly those states. The clock, the answer of the gateway and
the success or failure of every single store statement are part of each event, so a theorem about all event sequences
is a theorem about all clocks, gateways and failures. `ManagerOutcomes.dfy` says what each
answer means. `ManagerSafety.dfy`, `ManagerCounter.dfy`, `ManagerLimit.dfy` and `ManagerOutcomes.dfy` hold for every failure; `ManagerIndex.dfy` and `ManagerLedgers.dfy` for runs in which the store works,
unless they say otherwise.

**The concurrent system.** `TradingSystem.dfy` puts the manager, the paper gateway (`PaperGateway.dfy`) and the places
where reports travel (the list of the running poll, the gateway's queue, the hand of its dispatcher, the event queue)
into one step system. A handler that calls the gateway takes two steps and the kill switch one step per order, so
fills may happen between a gateway's acceptance and the registration of the order. A history log records what was
emitted, handled, applied, dropped and accepted. `SystemRefinement.dfy` shows that this system refines the atomic
manager, `SystemLedger.dfy` that no report is lost or reordered and that shares are conserved whatever fails,
`GatewayLedger.dfy`, `SystemLinks.dfy` and `SystemReports.dfy` build the joint invariant, `SystemConservation.dfy`
carries it through every step and states the results. `ReplyIds.dfy` shows that broker ids are new whenever they are
handed out, and `FillRaces.dfy` settles the fill race under any failures.

**Around it.** `EventQueue.dfy`: the event queue, its counters, and draining at shutdown. `AlpacaFills.dfy`: turning
cumulative fills into increments; `AlpacaPositions.dfy` follows them into the stored order and the position. `FillStream.dfy`: the bounded window of execution ids. `BarAggregator.dfy`: ticks to
bars. `Aggregation.dfy`: one position per symbol over all strategies. `Base.dfy` holds shared vocabulary.

Doubles are `real`. Random choices are unrestricted inputs.

## What the proofs brought out

- The open-order gate compares with `>`, and a replace does not pass it. The limit plus one is reached for every limit
  (`ManagerLimit.LimitPlusOneReached`), by exactly one kind of step (`ManagerLimit.LimitPassed`), and never exceeded.
- The counter is not decremented when a terminal report, the kill switch, a cancel with a failing status write or a
  replace failing after acceptance retires an order. `ManagerCounter.CounterExcess` gives the exact excess.
- The comments at `engine-cpp/src/core/order_manager.cpp:315-316` and the ordering of `handle_submit_command` promise that
  a mapping exists before any fill for it is dequeued. That holds exactly when the status write of the submit, or the
  status write and the insert of the replace, work (`FillRaces.WritesDecideRouting`, `FillRaces.FillRaceWithFailures`).
  Otherwise the id is never mapped and its fills have no effect (`FillRaces.FailedWriteLosesFills`), which does happen
  (`FillRaces.FillIsLost`).
- An order whose broker-id write failed is live and mapped, but no kill switch reaches it
  (`ManagerIndex.BrokerlessOrderSurvives`).
- A bar that starts at time 0 is mistaken for no bar, so ticks of the very first period are lost
  (`Bars.LosslessExactly`).
- Any fill that arrives after the Alpaca gateway has forgotten its order is decoded as a complete fill of its own; the
  round trip holds exactly when this does not happen to an order with fills and every other fill adds quantity or repeats
  the average (`AlpacaFills.RoundTrip`, `AlpacaFills.LateFillAddsInFull`). Once the order is closed the manager ignores such reports
  (`ManagerIndex.ClosedOrderIsDead`).
- If the broker takes back part of a cumulative quantity at an unchanged average, the stored order follows but the position
  does not, because it ignores fills without a positive quantity (`AlpacaPositions.BrokerToPosition`, `AlpacaPositions.TakenBack`).
- The aggregated average price is independent of the iteration order of the managers exactly when every part of the
  holdings that cancels out in quantity also cancels out in cost (`Aggregation.OrderFreeExactly`). That is so whenever all
  strategies are on one side, and can fail when they are not (`Aggregation.MixedSidesDependOnOrder`).
- Stopping a gateway's dispatcher notifies it without holding its mutex. A notification between its check and its sleep is
  lost, and then stopping never completes (`EventFlow.NotifyMisses`, `EventFlow.ShutdownCompletes`). That every report is
  handled once both threads have exited holds regardless (`EventFlow.ShutdownHandlesEveryReport`).

## Model

| member | source | states |
|---|---|---|
| `SystemConservation.OrderConserved` | engine-cpp/src/core/order_manager.cpp:369-448 | In every interleaving with a working store, at every moment: for each mapped order, stored filled quantity + reports in flight for it = quantity the gateway emitted; the gateway table agrees and never exceeds the ordered quantity |
| `SystemConservation.FilledOnFinalReport` | engine-cpp/src/core/order_manager.cpp:411-440 | The dispatcher finds an order fully filled on exactly the report at which the gateway removed it from its table |
| `SystemConservation.FillRace` | engine-cpp/src/core/order_manager.cpp:203-223 | Even when a fill is emitted before submit or replace returns, the report the dispatcher dequeues belongs to a stored order with that symbol and side, and the order is mapped unless it was cancelled or replaced |
| `SystemConservation.OnlyWithdrawnFillsAreDropped` | engine-cpp/src/core/order_manager.cpp:372-379 | Every report ever dropped belongs to an order that is stored as CANCELLED or REPLACED |
| `SystemConservation.QuietAgreement` | engine-cpp/src/core/order_manager.cpp:90-107 | With empty queues and no handler running, an order is pending in the gateway iff it is mapped in the manager, with equal filled quantities |
| `SystemConservation.SystemPositions` | engine-cpp/src/core/position_keeper.cpp:18-66 | In every state of every interleaving with a working store, also in the middle of a handler, each position is the signed sum of the filled quantities of all stored orders of the symbol |
| `SystemConservation.SystemCash` | engine-cpp/src/core/position_keeper.cpp:18-66 | In every such state with positive fill prices, quantity x average - realized profit equals the signed sum of filled x average over all stored orders |
| `SystemConservation.RunSteady` | engine-cpp/src/core/order_manager.cpp:90-107 | The joint invariant of manager, gateway, queues and history holds in every state of every interleaving in which the store works |
| `SystemConservation.ReportSteady` | engine-cpp/src/core/order_manager.cpp:369-448 | Dispatching one report keeps the joint invariant |
| `SystemLedger.SharesConserved` | engine-cpp/src/gateways/paper_trading_gateway.cpp:89-180 | Whatever fails: position = signed quantity the gateway filled - quantity in flight - quantity in dropped reports, per symbol, in every state |
| `SystemLedger.ReportsKeepOrder` | engine-cpp/include/trading/interfaces/i_execution_gateway.h:48-74 | Emitted reports = handled reports followed by those in flight, in order, through the poll list, the gateway queue, its dispatcher and the event queue |
| `SystemRefinement.RunRefines` | engine-cpp/src/core/order_manager.cpp:90-107 | Every interleaving in which fills arrive between the two halves of a handler refines a run of atomic handlers |
| `SystemRefinement.SystemRefinesManager` | engine-cpp/src/core/order_manager.cpp:90-107 | Whenever no handler is running, the manager of the step system is the atomic manager after the completed events |
| `SystemRefinement.SystemIsSafe` | engine-cpp/src/core/order_manager.cpp:152-357 | The safety invariant holds in every state, also in the middle of a handler and between two cancels of the kill switch |
| `FillRaces.FillRaceWithFailures` | engine-cpp/src/core/order_manager.cpp:279-324 | Exactly, in every interleaving with any failures: the broker id of an accepted order leads to that order iff the writes after the acceptance worked and nothing has retired the order since; the handler answers success iff those writes worked. Ids are assumed not to have wrapped, nothing else |
| `FillRaces.WritesDecideRouting` | engine-cpp/src/core/order_manager.cpp:203-223 | An accepted submit is mapped iff its status write works, an accepted replace iff its status write and its insert work; the answer is success in exactly these cases |
| `FillRaces.AcceptedIsNew` | engine-cpp/src/core/order_manager.cpp:279-317 | In every interleaving the broker id and the local id of an accepted order are new to the manager, and the broker id is never handed out again |
| `FillRaces.FailedWriteLosesFills` | engine-cpp/src/core/order_manager.cpp:205-211 | After a failed write the accepted order stays unmapped for the rest of every run, and no report for it has any effect |
| `FillRaces.UnissuedForever` | engine-cpp/src/core/order_manager.cpp:372-379 | An id that leads nowhere and is not handed out again leads nowhere for ever |
| `FillRaces.FillIsLost` | engine-cpp/src/core/order_manager.cpp:205-211 | A concrete interleaving with a failing status write in which the fill of an order that was never withdrawn is dropped |
| `FillRaces.RoutedUntilRetired` | engine-cpp/src/core/order_manager.cpp:227-448 | A mapped broker id leads to its order until the order is retired and nowhere afterwards; the kill switch does not retire an order whose broker id was never stored |
| `FillRaces.RaceIsReal` | engine-cpp/src/gateways/paper_trading_gateway.cpp:10-30 | A concrete interleaving in which the fill is at the head of the event queue while its broker id is still unmapped |
| `ReplyIds.RepliesRise` | engine-cpp/src/gateways/paper_trading_gateway.cpp:10-63 | In every interleaving the gateway answers with strictly rising id counters |
| `ReplyIds.RunKnown` | engine-cpp/src/core/order_manager.cpp:152-448 | Every broker id in the mapper or in a row came with the reply to an earlier submit or replace |
| `ReplyIds.RepliesCalled` | engine-cpp/src/core/order_manager.cpp:173-192 | Every completed event with a gateway reply had got as far as calling the gateway |
| `GatewayLedger.FillKeepsBooks` | engine-cpp/src/gateways/paper_trading_gateway.cpp:129-175 | A fill keeps the gateway ledger: pending orders hold exactly what was reported, nothing is overfilled, a report is final iff it completes its order, and nothing follows a final report |
| `GatewayLedger.AcceptKeepsBooks` | engine-cpp/src/gateways/paper_trading_gateway.cpp:22-27 | Accepting an order under a generated broker id keeps the gateway ledger |
| `GatewayLedger.CompletedByFinal` | engine-cpp/src/gateways/paper_trading_gateway.cpp:157-175 | If the first n reports complete an order, one of them was final |
| `SystemLinks.FillKeepsLinks` | engine-cpp/src/gateways/paper_trading_gateway.cpp:129-175 | A gateway fill keeps the manager records and the gateway table linked |
| `SystemLinks.WithdrawKeepsLinks` | engine-cpp/src/core/order_manager.cpp:237-249 | Withdrawing an order in gateway and manager keeps them linked |
| `SystemLinks.RegisterKeepsLinks` | engine-cpp/src/core/order_manager.cpp:203-217 | Storing and mapping the accepted order keeps them linked, whatever fills are already queued for it |
| `SystemLinks.AcceptKeepsLinks` | engine-cpp/src/gateways/paper_trading_gateway.cpp:42-63 | The gateway accepting a new order, possibly instead of an old one, keeps the records linked |
| `SystemReports.CompletionAgrees` | engine-cpp/src/core/order_manager.cpp:415-418 | The fully-filled test succeeds iff the gateway called the report final |
| `SystemReports.ApplyKeepsLinks` | engine-cpp/src/core/order_manager.cpp:402-440 | Applying a report keeps the records linked |
| `SystemReports.UnmappedIsWithdrawn` | engine-cpp/src/core/order_manager.cpp:372-379 | A report without a mapping belongs to an order that was cancelled or replaced, never to a filled or rejected one |
| `ManagerSafety.OpenOrderBound` | engine-cpp/include/trading/core/risk_manager.h:23-46 | In every run with any failures: mapped orders <= open_order_count_, the count converts to size_t unchanged, and with a limit set it never exceeds limit + 1 (the gate compares with >) |
| `ManagerLimit.LimitPlusOneReached` | engine-cpp/include/trading/core/risk_manager.h:31 | For every limit n a run of n + 1 accepted submits ends with n + 1 mapped orders and a count of n + 1 |
| `ManagerLimit.LimitPassed` | engine-cpp/include/trading/core/risk_manager.h:31 | Among all events with any failures, exactly a submit that finds the count at n, passes the other checks and is accepted, inserted and marked SUBMITTED takes the count past a limit n |
| `ManagerSafety.MappedOrdersAreLive` | engine-cpp/src/core/order_manager.cpp:369-448 | In every run with any failures a mapped order is stored, SUBMITTED or PARTIALLY_FILLED, and not yet full |
| `ManagerSafety.TerminalIsAbsorbing` | engine-cpp/src/persistence/sqlite_order_store.cpp:142-176 | In every run with any failures a row with a terminal status never changes again, although the UPDATE has no status guard |
| `ManagerSafety.RunSettles` | engine-cpp/src/core/order_manager.cpp:152-448 | Rows never disappear, their order never changes, closed rows never change |
| `ManagerSafety.RunSafe` | engine-cpp/src/core/order_manager.cpp:90-107 | The safety invariant (mapper soundness, live mapped orders, counter bounds, used ids) holds after every run |
| `ManagerSafety.BeginSubmitSafe` | engine-cpp/src/core/order_manager.cpp:152-190 | Up to the gateway call, submit keeps the invariant, and reaching the gateway means that the count is within the limit |
| `ManagerSafety.FinishSubmitSafe` | engine-cpp/src/core/order_manager.cpp:192-223 | After the gateway call, submit keeps the invariant on every success and failure path |
| `ManagerSafety.FinishReplaceSafe` | engine-cpp/src/core/order_manager.cpp:272-324 | After the gateway call, replace keeps the invariant on every path, although it never passes the risk gate |
| `ManagerIndex.MapperIsExactIndex` | engine-cpp/src/core/order_manager.cpp:203-448 | In runs without store failures: local id l maps to broker id b iff the row of l is open under b, and iff b maps back to l |
| `ManagerIndex.RunIndexed` | engine-cpp/src/core/order_manager.cpp:203-448 | The exact-index invariant holds after every such run |
| `ManagerIndex.ClosedOrderIsDead` | engine-cpp/src/core/order_manager.cpp:372-379 | Once an order is closed, no later report for its broker id ever changes anything |
| `ManagerIndex.KillSwitch` | engine-cpp/src/core/order_manager.cpp:327-357 | With a working store exactly the orders whose cancel was refused stay open and mapped, all other open orders are CANCELLED, closed rows, positions and the counter are unchanged |
| `ManagerIndex.KillSwitchReach` | engine-cpp/src/core/order_manager.cpp:332-354 | With any failures: a mapped order survives iff the query missed it, the gateway refused, its status write failed, or its row has no broker id |
| `ManagerIndex.BrokerlessOrderSurvives` | engine-cpp/src/core/order_manager.cpp:216-217 | A submit whose broker-id write fails leaves a live mapped order that no kill switch reaches |
| `ManagerIndex.KillSwitchIsFinal` | engine-cpp/src/core/order_manager.cpp:327-357 | After the kill switch and any further run, a report for an order it cancelled has no effect |
| `ManagerCounter.CounterExcess` | engine-cpp/src/core/order_manager.cpp:384-399 | In every run with any failures the counter exceeds the number of mapped orders by exactly the retirements it is not told of: terminal reports, kill switch, a failed status write in cancel, a replace failing after acceptance |
| `ManagerCounter.CountIsExact` | engine-cpp/src/core/order_manager.cpp:237-249 | Without terminal reports, kill switch and store failures the counter equals the number of mapped orders |
| `ManagerCounter.KillSlips` | engine-cpp/src/core/order_manager.cpp:333-347 | The kill switch moves the counter ahead by exactly the number of mapped orders it cancels |
| `ManagerOutcomes.SubmitAnswer` | engine-cpp/src/core/order_manager.cpp:173-222 | Each answer of a submit has exactly one cause; the risk checks come in the order quantity, open orders, loss |
| `ManagerOutcomes.SubmitMeans` | engine-cpp/src/core/order_manager.cpp:173-222 | What each answer says about the stored row (identity, symbol, side, quantity, status, broker id), the mapper and the counter |
| `ManagerOutcomes.LossBlocksSubmit` | engine-cpp/src/core/order_manager.cpp:180-190 | After priced fills that left every symbol flat with a net loss beyond the limit, a submit that passes the other checks is refused for its loss and stored as REJECTED |
| `ManagerOutcomes.CancelAnswer` | engine-cpp/src/core/order_manager.cpp:230-251 | Each answer of a cancel has exactly one cause |
| `ManagerOutcomes.CancelMeans` | engine-cpp/src/core/order_manager.cpp:237-251 | Success means CANCELLED, unmapped and one less counted; unknown or refused means unchanged; a failed write means unmapped but stored and counted as before |
| `ManagerOutcomes.ReplaceAnswer` | engine-cpp/src/core/order_manager.cpp:257-324 | Each answer of a replace has exactly one cause |
| `ManagerOutcomes.ReplaceMeans` | engine-cpp/src/core/order_manager.cpp:272-324 | What each answer says about the old row, the new row and the mapper |
| `ManagerOutcomes.TerminalReportMeans` | engine-cpp/src/core/order_manager.cpp:384-399 | A rejection is stored as REJECTED and a cancellation as CANCELLED; either way the order is unmapped, and position and counter stay |
| `ManagerOutcomes.FillMeans` | engine-cpp/src/core/order_manager.cpp:402-440 | A fill is added to the stored quantity, stored as FILLED iff it completes the order, which is when mapping and count go, and moves the position up for a buy and down otherwise |
| `ManagerOutcomes.UnreadReportIgnored` | engine-cpp/src/core/order_manager.cpp:373-409 | A report with an unknown broker id or an unreadable order changes nothing |
| `ManagerLedgers.PositionsMatchOrders` | engine-cpp/src/core/order_manager.cpp:402-427 | In every run with a working store and faithful reports each position is the sum over all stored orders, live or terminal, of +/- filled quantity |
| `ManagerLedgers.CashMatchesOrders` | engine-cpp/src/core/order_manager.cpp:402-427 | With priced fills, quantity x average - realized profit is the signed sum of filled x average over all stored orders |
| `ManagerLedgers.FillMovesBoth` | engine-cpp/src/core/order_manager.cpp:420-427 | One fill moves the store column and the position column by the same amount |
| `Dispatcher.OrderManager.PrepareSubmit` | engine-cpp/src/core/order_manager.cpp:152-190 | The first half of submit leaves the state and the answer of its specification on every early return, including a creation time that cannot be formatted |
| `Dispatcher.OrderManager.HandleSubmitCommand` | engine-cpp/src/core/order_manager.cpp:152-223 | The whole new state and the answer of submit, on every success and failure path |
| `Dispatcher.OrderManager.HandleCancelCommand` | engine-cpp/src/core/order_manager.cpp:227-252 | The whole new state and the answer of cancel, whose meaning CancelAnswer and CancelMeans state |
| `Dispatcher.OrderManager.HandleReplaceCommand` | engine-cpp/src/core/order_manager.cpp:254-325 | The whole new state and the answer of replace, with the old mapping removed before the new one is added |
| `Dispatcher.OrderManager.HandleCancelAllCommand` | engine-cpp/src/core/order_manager.cpp:327-357 | The kill switch leaves the state of its specification for the open orders the store listed, which are all of them unless the query broke off |
| `Dispatcher.OrderManager.HandleFill` | engine-cpp/src/core/order_manager.cpp:369-448 | The whole new state after a report, with every early exit |
| `Dispatcher.OrderManager.RunDispatchLoop` | engine-cpp/src/core/order_manager.cpp:90-107 | Popping queue entries one after the other and calling their handlers is the run that all theorems about the manager speak of, with the order lists that the kill switch really got from the store |
| `IdMapper.AddKeepsInverse` | engine-cpp/include/trading/utils/order_id_types.h:42-46 | Adding keeps the two maps mutual inverses iff neither id is tied to another one |
| `IdMapper.RemoveUndoesAdd` | engine-cpp/include/trading/utils/order_id_types.h:64-71 | Removing what was added under fresh ids restores both maps |
| `IdMapper.OrderIdMapper.AddMapping` | engine-cpp/include/trading/utils/order_id_types.h:42-46 | Both maps after an add |
| `IdMapper.OrderIdMapper.RemoveMapping` | engine-cpp/include/trading/utils/order_id_types.h:64-71 | Both maps after a remove; an unknown id changes nothing |
| `IdGenerator.CounterRead` | engine-cpp/include/trading/utils/order_id_generator.h:17-24 | The counter can be read back from an id whatever prefix and clock were |
| `IdGenerator.IdInjective` | engine-cpp/include/trading/utils/order_id_generator.h:17-24 | Formatting is injective: ids of one prefix coincide iff clock and counter do |
| `IdGenerator.GeneratedIdsCollide` | engine-cpp/include/trading/utils/order_id_generator.h:17-24 | Two calls of one generator collide iff their clocks are equal and their call numbers agree modulo 2^64, so ids are distinct for fewer than 2^64 calls |
| `IdGenerator.IdShape` | engine-cpp/include/trading/utils/order_id_generator.h:17-24 | An id is the prefix, the clock in decimal and the counter in decimal, joined by underscores, the counter padded to six digits |
| `IdGenerator.OrderIdGenerator.Generate` | engine-cpp/include/trading/utils/order_id_generator.h:17-24 | The id of the n-th call, with the 64-bit wrap of the counter |
| `OrderTable.FillAddsCash` | engine-cpp/src/persistence/sqlite_order_store.cpp:219-232 | The weighted-average UPDATE adds exactly quantity x price to filled x average |
| `OrderTable.OrderStore.StoreOrder` | engine-cpp/src/persistence/sqlite_order_store.cpp:74-139 | An insert succeeds iff the store works, the key is new and the broker id is unused; otherwise nothing changes |
| `OrderTable.OrderStore.UpdateBrokerId` | engine-cpp/src/persistence/sqlite_order_store.cpp:178-211 | The UNIQUE broker-id constraint decides, and a failed update changes nothing |
| `OrderTable.OrderStore.UpdateOrderStatus` | engine-cpp/src/persistence/sqlite_order_store.cpp:142-176 | An update of a missing row succeeds and changes nothing |
| `OrderTable.OrderStore.ApplyFill` | engine-cpp/src/persistence/sqlite_order_store.cpp:213-261 | Average, filled quantity and status of the one row |
| `OrderTable.OpenOrEnded` | engine-cpp/src/persistence/sqlite_order_store.cpp:337-359 | The query for open orders leaves out exactly the statuses that end an order |
| `OrderTable.OrderStore.GetOpenOrders` | engine-cpp/src/persistence/sqlite_order_store.cpp:330-367 | A duplicate-free list of open orders, complete unless the cursor failed |
| `Risk.Check` | engine-cpp/include/trading/core/risk_manager.h:23-46 | Passes iff every limit that is switched on is respected, with the comparison directions of the source |
| `Positions.FillDirection` | engine-cpp/src/core/position_keeper.cpp:20-26 | Only a buy raises the quantity, everything else lowers it, and a fill without a positive quantity changes nothing |
| `Positions.ClosingFill` | engine-cpp/src/core/position_keeper.cpp:33-62 | A priced fill against the position realizes price minus average (negated for a short) on what it closes: its own quantity while some is left, otherwise the whole position; the average then stays, is zero when flat, is the price when crossed |
| `Positions.OpeningFill` | engine-cpp/src/core/position_keeper.cpp:46-60 | A priced fill that opens or adds realizes nothing and leaves the weighted average, which is the price when it opens |
| `Positions.UnpricedFill` | engine-cpp/src/core/position_keeper.cpp:43-45 | A fill without a positive price leaves average and realized profit alone |
| `Positions.FillConservesCash` | engine-cpp/src/core/position_keeper.cpp:18-66 | One fill moves quantity x average - realized profit by its cash, through open, add, reduce, flip, flat and unpriced fills |
| `Positions.FillsConserveCash` | engine-cpp/src/core/position_keeper.cpp:18-66 | quantity x average - realized profit is the sum of signed cash over any sequence of fills |
| `Positions.FlatProfitIsCashFlow` | engine-cpp/src/core/position_keeper.cpp:18-66 | Priced fills that bring a fresh position back to flat realize exactly their net cash flow |
| `Positions.FillMovesPnl` | engine-cpp/src/core/position_keeper.cpp:102-107 | A fill changes the total profit by the change of the realized profit of its own symbol |
| `Positions.PnlIsCash` | engine-cpp/src/core/position_keeper.cpp:102-107 | Over any priced fills of any symbols, total profit = cost of what is held + net cash received |
| `Positions.FlatBookPnl` | engine-cpp/src/core/position_keeper.cpp:102-107 | Priced fills that leave every symbol flat give a total profit equal to sales less purchases |
| `Positions.PiecesJoin` | engine-cpp/src/core/position_keeper.cpp:27-65 | Two consecutive pieces at one price give the same position as their sum, also when the first goes flat or crosses |
| `Positions.SplitInvariance` | engine-cpp/src/core/position_keeper.cpp:27-65 | Any list of positive pieces at one price gives the same quantity, average and realized profit as the single fill |
| `Positions.PositionKeeper.OnFillReport` | engine-cpp/src/core/position_keeper.cpp:18-66 | The book after a fill, whose meaning FillDirection, ClosingFill, OpeningFill and UnpricedFill state |
| `Positions.PositionKeeper.GetTotalPnl` | engine-cpp/src/core/position_keeper.cpp:102-107 | The sum of realized profits over all symbols, whatever the iteration order; FillMovesPnl and FlatBookPnl say what it is |
| `Paper.NeverOverfills` | engine-cpp/src/gateways/paper_trading_gateway.cpp:129-175 | For any dice: fills are positive, never exceed what is left, add up to it iff the order leaves the table by fill, and number at most the quantity rounded up |
| `Paper.FillFollowsDice` | engine-cpp/src/gateways/paper_trading_gateway.cpp:129-143 | A partial fill is the drawn fraction of what is left rounded down to whole shares, at least one share and at most what is left; a full fill is all that is left |
| `Paper.PollReports` | engine-cpp/src/gateways/paper_trading_gateway.cpp:157-172 | Every report of a poll carries the symbol and side of a pending order, the price drawn for it, and exactly the quantity the poll added; every order that fills is reported |
| `Paper.MarketFillCost` | engine-cpp/src/gateways/paper_trading_gateway.cpp:151-155 | With the default configuration a market buy pays 7.5 basis points above the middle price, a sell gets as much less |
| `Paper.WalkMoves` | engine-cpp/src/gateways/paper_trading_gateway.cpp:182-196 | A move shifts the middle price, which never falls below 0.01 |
| `Paper.MarketPricePositive` | engine-cpp/src/gateways/paper_trading_gateway.cpp:182-196 | However the price walk goes, a market fill of the default configuration has a positive price |
| `Paper.PaperGateway.SubmitOrder` | engine-cpp/src/gateways/paper_trading_gateway.cpp:10-30 | The pending table and the generated broker id |
| `Paper.PaperGateway.CancelPending` | engine-cpp/src/gateways/paper_trading_gateway.cpp:32-40 | The order leaves the pending table |
| `Paper.PaperGateway.Replace` | engine-cpp/src/gateways/paper_trading_gateway.cpp:42-63 | The old order leaves, the new one enters under a fresh id; a rejection changes nothing |
| `Paper.PaperGateway.SimulateFills` | engine-cpp/src/gateways/paper_trading_gateway.cpp:89-180 | One poll over the table in any order equals filling the orders one by one, with one report for each fill |
| `AlpacaFills.RoundTrip` | engine-cpp/src/gateways/alpaca_fix_gateway.cpp:49-92 | For every stream of positive quantities: applying the decoded increments with the store average reproduces the broker quantity and average after every update iff each fill adds quantity or repeats the average while the order is remembered, and is the first fill of the order if it was forgotten before |
| `AlpacaFills.NonDecreasingRoundTrip` | engine-cpp/src/gateways/alpaca_fix_gateway.cpp:49-83 | In particular for non-decreasing quantities whose repeats carry the same average, as long as no fill follows the end of an order that has fills |
| `AlpacaFills.OneUpdate` | engine-cpp/src/gateways/alpaca_fix_gateway.cpp:63-66 | For one update: store and broker agree afterwards iff quantity was added or the average is unchanged |
| `AlpacaFills.DecoderKnows` | engine-cpp/src/gateways/alpaca_fix_gateway.cpp:57-74 | At any point the decoder knows the latest cumulative quantity and cost of an order, or nothing once it has forgotten it |
| `AlpacaFills.LateFillAddsInFull` | engine-cpp/src/gateways/alpaca_fix_gateway.cpp:68-71 | Any fill for a forgotten order, a repeated final fill or one after a cancel, is decoded in full and stored on top; the store then agrees with the broker iff nothing had been filled |
| `AlpacaFills.DecodedCarries` | engine-cpp/src/gateways/alpaca_fix_gateway.cpp:76-83 | One report per fill, in order, with the broker id, symbol and side of its update and no terminal status |
| `AlpacaPositions.BrokerToPosition` | engine-cpp/src/gateways/alpaca_fix_gateway.cpp:45-93 | End to end: once the manager has handled the decoded reports of an order up to its completion, while other orders trade other symbols, the stored quantity and average are the latest of the broker, and the position has moved by that quantity, up for a buy and down otherwise, iff the broker never took a quantity back |
| `AlpacaPositions.MovedBounds` | engine-cpp/src/gateways/alpaca_fix_gateway.cpp:63-63 | What the position moves is at least the latest cumulative quantity, and equal iff quantities never shrink |
| `AlpacaPositions.TakenBack` | engine-cpp/src/gateways/alpaca_fix_gateway.cpp:63-66 | Two updates of ten and then eight shares at one price: stored eight, position ten |
| `AlpacaFills.AlpacaGateway.OnUpdate` | engine-cpp/src/gateways/alpaca_fix_gateway.cpp:45-93 | Decoder state after an update of any event kind, and the report, which carries the broker id, symbol and side of the update |
| `FillStream.DeliveriesSpaced` | engine-cpp/src/gateways/grpc_gateway.cpp:118-136 | Across reconnects two deliveries of one execution id have at least 10000 other identified deliveries between them |
| `FillStream.DeliveredFaithfully` | engine-cpp/src/gateways/grpc_gateway.cpp:118-136 | Order is kept, reports without an id are never filtered, and every id that was sent is delivered |
| `FillStream.ExactlyOnce` | engine-cpp/src/gateways/grpc_gateway.cpp:123-132 | While at most 10000 different ids are in use each is delivered exactly once |
| `FillStream.OnceExactly` | engine-cpp/src/gateways/grpc_gateway.cpp:123-132 | For every stream: every id is delivered exactly once iff no id is sent again after it has left the window |
| `FillStream.WindowIsTight` | engine-cpp/src/gateways/grpc_gateway.cpp:126-129 | The bound is tight: an id repeated after 10000 others is delivered again |
| `FillStream.WindowForgets` | engine-cpp/src/gateways/grpc_gateway.cpp:126-129 | Any delivered id that has left the window is delivered a second time when it is sent again |
| `FillStream.FlattenAt` | engine-cpp/src/gateways/grpc_gateway.cpp:105-136 | The concatenated stream holds every report of every connection at its place, one connection after the other |
| `FillStream.GrpcGateway.OnRead` | engine-cpp/src/gateways/grpc_gateway.cpp:119-136 | Set and deque stay equal, duplicate-free, at most 10000 long, and hold the last delivered ids; a report is delivered iff its id is not among them |
| `FillStream.GrpcGateway.RunFillStream` | engine-cpp/src/gateways/grpc_gateway.cpp:102-149 | The read loops over all connections deliver what the simple specification delivers for the concatenated stream |
| `Bars.BarsPartition` | engine-cpp/src/gateways/simulated_feed.cpp:199-220 | Emitted bars plus the open one partition the stream: every tick once, disjoint period-aligned windows in order, each bar the direct fold of its ticks |
| `Bars.LosslessExactly` | engine-cpp/src/gateways/simulated_feed.cpp:208-219 | For non-decreasing non-negative timestamps no tick goes missing iff there is at most one tick or the first is at least one period after zero (a start of 0 is taken for "no bar") |
| `Bars.TicksCovered` | engine-cpp/src/gateways/simulated_feed.cpp:199-220 | Exactly which ticks are covered: all but those of the first window, where only a newest tick is held |
| `Bars.BarsAreFolds` | engine-cpp/src/gateways/simulated_feed.cpp:53-81 | Whatever the timestamps, open, high, low, close, volume and VWAP of every emitted and open bar equal the direct fold of the ticks that went into it |
| `Bars.BarOfOne` | engine-cpp/src/gateways/simulated_feed.cpp:53-68 | The bar of one tick has its price everywhere, its size as volume, and starts at the aligned window of the tick |
| `Bars.BarsJoin` | engine-cpp/src/gateways/simulated_feed.cpp:70-81 | The bar over two stretches of ticks opens with the first, closes with the second, has the outer extremes, the summed volume and the volume-weighted price |
| `Bars.BarsSeparated` | engine-cpp/src/gateways/simulated_feed.cpp:47-51 | The ticks of a bar share one aligned window and later bars have later windows |
| `Bars.BarInRange` | engine-cpp/src/gateways/simulated_feed.cpp:70-81 | low <= open, close, vwap <= high |
| `Bars.AccumulatorsIndependent` | engine-cpp/src/gateways/simulated_feed.cpp:202-219 | Each accumulator is the run of the ticks of its own symbol alone, whatever else is subscribed |
| `Bars.SimulatedFeed.AddTick` | engine-cpp/src/gateways/simulated_feed.cpp:208-218 | One accumulator takes one tick and hands out the bar it completes |
| `Bars.SimulatedFeed.OnTick` | engine-cpp/src/gateways/simulated_feed.cpp:199-220 | The accumulator loop: every accumulator of the symbol advances, the completed bars are exactly those |
| `EventFlow.EventsAccountedFor` | engine-cpp/include/trading/utils/event_queue.h:19-73 | In every interleaving: pushed = processed + queued + in hand, the idle condition holds iff nothing is queued or in hand, and only market data is dropped |
| `EventFlow.EssentialInOrder` | engine-cpp/src/core/order_manager.cpp:74-107 | Fills and commands are never dropped and are handled in arrival order |
| `EventFlow.CommandsAnsweredOnce` | engine-cpp/src/core/order_manager.cpp:109-139 | Each command is answered exactly once, in order; an idle queue has answered all |
| `EventFlow.QueuedMarketData` | engine-cpp/include/trading/utils/event_queue.h:33-45 | Queued market data never exceeds 8192 |
| `EventFlow.ShutdownHandlesEveryReport` | engine-cpp/src/core/order_manager.cpp:66-72 | Stopping the gateway and then the dispatch thread handles every report ever emitted, in order |
| `EventFlow.ShutdownCompletes` | engine-cpp/include/trading/interfaces/i_execution_gateway.h:56-82 | After a stop request the exit of both threads can still be reached iff the notification of the gateway dispatcher has not been missed |
| `EventFlow.NotifyMisses` | engine-cpp/include/trading/interfaces/i_execution_gateway.h:76-82 | The notification is missed iff it falls between the check of the dispatcher and its sleep, which is possible because it is sent without the mutex |
| `EventFlow.MissedForever` | engine-cpp/include/trading/interfaces/i_execution_gateway.h:62-64 | After a missed notification no internal step ever wakes the dispatcher or lets the dispatch thread be stopped |
| `EventFlow.NotificationCanBeLost` | engine-cpp/include/trading/interfaces/i_execution_gateway.h:76-82 | A concrete interleaving in which the notification is missed |
| `EventFlow.HeardStaysHeard` | engine-cpp/include/trading/interfaces/i_execution_gateway.h:62-66 | Once the dispatcher has noticed, no schedule makes it miss the stop |
| `EventFlow.ScheduleEnds` | engine-cpp/src/core/order_manager.cpp:66-72 | A schedule without new input that can go no further has let both threads exit, unless the notification was missed |
| `EventFlow.InternalStepsShrink` | engine-cpp/include/trading/utils/event_queue.h:50-66 | Without new input and spurious wakeups every schedule comes to an end |
| `EventFlow.GatewayDispatch.RunDispatcherUntilStopped` | engine-cpp/include/trading/interfaces/i_execution_gateway.h:56-74 | Once it leaves its loop the dispatcher has appended all queued reports to the event queue, in order, and only the push counter has moved |
| `EventFlow.Enqueue` | engine-cpp/src/core/order_manager.cpp:74-86 | Market data may be dropped at the depth limit, everything else is pushed |
| `EventQueues.EventQueue.TryPush` | engine-cpp/include/trading/utils/event_queue.h:33-45 | Queue and counters after a bounded push |
| `EventQueues.EventQueue.Pop` | engine-cpp/include/trading/utils/event_queue.h:50-58 | The oldest item, or nothing only if the queue is empty |
| `Aggregation.AggregationsAgree` | engine-cpp/src/core/trading_engine.cpp:274-320 | Over one manager order both loops give the summed quantity, and the same average whenever it is non-zero |
| `Aggregation.HoldingsAddUp` | engine-cpp/src/core/trading_engine.cpp:274-291 | What the loops run over adds up to the shares and the cost in the positions of all managers, and is empty iff no manager has the symbol |
| `Aggregation.SoleHolderAlone` | engine-cpp/src/core/trading_engine.cpp:274-320 | If one manager has shares of a symbol, both loops give exactly its quantity and average, wherever it stands |
| `Aggregation.AverageWhenFlat` | engine-cpp/src/core/trading_engine.cpp:283-289 | When the sum becomes zero the two loops keep different averages: the last one met, and the one before |
| `Aggregation.CostSinceFlat` | engine-cpp/src/core/trading_engine.cpp:279-290 | quantity x average is the cost of the holdings since the running quantity was last zero |
| `Aggregation.AverageExplainsCost` | engine-cpp/src/core/trading_engine.cpp:279-290 | quantity x average equals the whole cost basis iff the holdings up to the last flat point cost nothing |
| `Aggregation.OneSidedCost` | engine-cpp/src/core/trading_engine.cpp:279-290 | If all strategies are on one side, quantity x average equals the summed cost basis |
| `Aggregation.OneSidedIgnoresOrder` | engine-cpp/src/core/trading_engine.cpp:274-291 | If all strategies are on one side, the answer does not depend on the order of the managers |
| `Aggregation.OrderFreeExactly` | engine-cpp/src/core/trading_engine.cpp:274-291 | For any holdings with a non-zero sum: no order of the managers changes the average iff every part of them that cancels out in quantity also cancels out in cost |
| `Aggregation.FlatPartForgotten` | engine-cpp/src/core/trading_engine.cpp:279-290 | Visiting a part that cancels out in quantity first, and the rest in a suitable order, makes the average forget the cost of that part |
| `Aggregation.MixedSidesDependOnOrder` | engine-cpp/src/core/trading_engine.cpp:274-291 | Three holdings whose average is 30 in one order and 20 in another |
| `Aggregation.TradingEngine.GetPosition` | engine-cpp/src/core/trading_engine.cpp:267-298 | An error iff no manager has the symbol; otherwise the shares of all managers, and exactly the position of the only manager with shares if there is one |
| `Aggregation.TradingEngine.GetAllPositions` | engine-cpp/src/core/trading_engine.cpp:300-328 | An entry iff some manager has the symbol, with the shares of all managers, and exactly the position of the only manager with shares if there is one |

## Left out

- Floating-point rounding: doubles are reals, so laws that hold up to rounding are stated exactly.
- Fill sinks, bar and tick sinks, the journal and log messages: they only observe.
- The order fields beyond id, symbol, side and quantity.
- Dispatcher.OrderManager.RunDispatchLoop: a creation time that cannot be formatted is not an event of its own; it leaves the state of a failed insert, which is one.
- Theorems about runs with a working store, and `FillRaces.FillRaceWithFailures`, assume at most 2^64 generated ids; the wrap of the counter is modelled in the generator.
- Dispatcher.OrderManager.HandleSubmitCommand: does not model overflow of the 32-bit open-order counter.
- Dispatcher.OrderManager.HandleFill: the store's SQL text, locks and encoding are not modelled; each statement succeeds or fails as a whole.
- OrderTable.OrderStore.GetOpenOrders: does not model the ordering by creation time; every order of the list is covered.
- OrderTable.OrderStore.ApplyFill: does not model the NULL that a division by zero stores; it is the zero that it reads back as.
- The order store is empty at the start; recovery after a restart is not modelled.
- SystemConservation.OrderConserved: assumes positive ordered quantities, which the source does not check, and an order store that works; `SystemLedger.SharesConserved` needs neither.
- The step system contains the paper gateway only; the Alpaca and gRPC gateways are covered by their stream logic.
- Paper.PaperGateway.SimulateFills: limit-order conditions and fill prices are unrestricted inputs, and fills of one poll may interleave with commands in the step system, which allows more runs than the lock does.
- Locks and thread objects: each locked region is one atomic step; of the condition variables only the one of the gateway's dispatcher is modelled.
- EventFlow.ShutdownCompletes: does not count on spurious wakeups, which may rescue a missed notification.
- EventQueues.EventQueue.Pop: blocking is a precondition (an item is there or a stop was requested); the 64-bit counters do not wrap.
- EventFlow.CommandsAnsweredOnce: does not model the promise objects; a handler returns its one answer, which is recorded when it finishes.
- Bars.SimulatedFeed.OnTick: tick generation, subscription counting, period parsing and overflow of nanosecond sums are not modelled; a period is positive.
- Bars.LosslessExactly: negative timestamps are excluded, as the system clock never produces them.
- AlpacaFills.RoundTrip: requires positive cumulative quantities.
- Alpaca SDK calls, enum conversions and the rejected event, which the source ignores.
- FillStream.GrpcGateway.RunFillStream: the connection, the reconnect delay and cancellation are left to the list of connections.
- Aggregation.TradingEngine.GetAllPositions: realized and unrealized profit fields of the combined entries are not modelled.
- gRPC server, adapter processes, Python client, market-data registry and configuration: plumbing around the core.

# Verified model of Supabot

Supabot is a trading bot for Korean stock and coin exchanges. This project models the stateful engines behind it in
Dafny and proves what they keep: over every run, every input and every reaction of the exchange, the database and the
clock, which are parameters chosen freely at each step. Check the whole project with `dafny verify dfyconfig.toml`.

| file | engine |
|---|---|
| `Orders.dfy` | the tracked orders: a list of mutable order dictionaries and two indexes over it |
| `Lifecycle.dfy`, `LifecycleRuns.dfy`, `LinkedSells.dfy`, `Fifo.dfy` | what one synchronisation step does, and what all runs of steps keep |
| `Submission.dfy`, `Fills.dfy`, `OrderTerms.dfy` | the same steps by the values of the fields before and after: when an order is sent, sold, stopped or dropped, and what no run changes |
| `Sync.dfy`, `SyncCycle.dfy` | the synchroniser itself, step by step, proved equal to those functions; whole cycles and recovery as runs |
| `Rsi.dfy`, `RsiSearch.dfy` | the relative strength index, its algebraic inverse, and the search for a price with a given index |
| `Volumes.dfy` | rounding of volumes to whole shares or to four decimals |
| `WriteBehind.dfy` | the write-behind queue and the replacement of one database row by another |
| `Ledger.dfy`, `HoldTimes.dfy`, `Timelines.dfy`, `Breakdown.dfy`, `Drawdown.dfy`, `Sorting.dfy` | three average-cost ledgers, their agreement, what a realised sale reports, breakdowns and drawdown |
| `Calendar.dfy`, `NextRun.dfy`, `Sessions.dfy` | the calendar, the next run of a recurring order, the next trading session |
| `Dca.dfy`, `DcaRuns.dfy`, `DcaOrders.dfy`, `Recurring.dfy` | recurring orders: one pass, all runs, which orders are placed and of what size, and the manager that updates its list in place |
| `Backtest.dfy` | the backtest simulator |
| `Exposure.dfy`, `ExposureRuns.dfy` | open exposure, the gate in front of orders, and what every synchronisation step adds to exposure |
| `Batch.dfy`, `BatchOrders.dfy`, `CoinBatch.dfy` | batches of split orders: against the gate, what their legs ask for and what is tracked for them, and coins |

Prices, volumes and money are `real`: the arithmetic is exact, and the code's explicit rounding and tolerances are kept
as they are. An operation that the code performs by changing state is a method with the same branches and loops, and
its contract equates the new state with a function of the old one; the theorems are about those functions, and the main
ones say what the fields hold afterwards, without naming the functions that compute it.

## Where the code does less than it sounds

Properties one would expect, with the exact condition under which they hold of the code, or an input on which they fail.

- The search for open duplicates does not leave out the order itself. After five silent status queries an order that is
  still open is put in line again under its own id, found as its own duplicate, and "replaced" by itself: the database
  row is written and then deleted under the same key. The replacement ends with the new row in the replay iff the two
  ids differ (`WriteBehind.ReplaceNeverLosesTheOrder`, with the input in `WriteBehind.SelfReplacementDeletesTheRow`).
  It also clears the failure counter, so that an order can be refused five times and as often again as refusals were
  struck off, which is exactly how often an order is refused that is given up (`LifecycleRuns.RefusalsAreBounded`, with
  six refusals in `LifecycleRuns.SelfAdoptionAllowsMoreRefusals`).
- Re-keying an order to an id that another tracked order already has breaks the distinctness of ids
  (`Orders.ReplaceKeepsDistinct`, `LifecycleRuns.StepKinds` for a step and `LifecycleRuns.RunsStayDistinct` for a run
  are if-and-only-ifs). Of two
  equal grid legs, one open and one to be submitted again, the second adopts the first
  (`Lifecycle.EqualLegsShareAnId`).
- If the database refuses a queued new row for good, the queued deletion of the old row still runs, and the order is in
  neither (`WriteBehind.RefusedUpsertLosesTheOrder`). Refusals of other keys do no harm, and a refused key keeps its
  replayed row only if the database had it already (`WriteBehind.DrainKeepsKeyIff`).
- A write that goes past the queue can be overwritten by an older queued task (`WriteBehind.DirectWrite` says exactly when).
- Linked take-profit sells are counted only while they are tracked. Once one has filled and is gone, its volume is
  offered again: all sells together exceed the executed volume by up to what was lost from sight
  (`LinkedSells.EverySellIsAccountedFor`), one call does so exactly as `LinkedSells.LostSellsAreSoldAgain` says, and
  `LinkedSells.FilledSellIsSoldAgain` sells 15 for 10 bought.
- Open exposure counts sells, so that the sell created for a fill raises it when the sell is worth more than what filled
  (`ExposureRuns.SellGainIsTheSpread` is an if-and-only-if, `ExposureRuns.FillRaisesExposure` goes from 1000 to 1100).
  One check of the cap therefore covers a batch over its life only up to those gains.
- Coin volumes are rounded to the nearest multiple of 0.0001, not down. "Never exceeds" therefore carries half a lot of
  slack for coins and none for shares (`Volumes.RoundVolumeBounds`), and a linked total can end one lot beside the
  rounded executed volume, at ties only (`Volumes.RoundTheRest`). A split coin purchase can cost more than its budget
  (`Batch.CoinBatchMayExceedBudget`): grids stay within budget and cap iff their legs are worth at least 498.501 lots
  (`CoinBatch.CoinGridsFitIff`, `CoinBatch.CoinGridsStayWithinCapIff`), a batch at RSI targets, which keeps no reserve,
  iff no more is rounded up than down or left over (`CoinBatch.RsiCoinsCost`).
- Repeating the last close leaves the index unchanged except with period 1 after a loss (`Rsi.FlatClose`). A bid with
  period 1 then starts from a wrong index, and this is the one input on which the search answers wrongly
  (`RsiSearch.SearchPriceForTargetRsi`, `RsiSearch.FalseStartExample`). The bot's own callers use period 14 throughout;
  period 1 exists at the functions' interfaces only.
- The algebraic guess is seeded with the first change, the `ta` library with zero: the guess hits the target of the
  library's index iff the first two closes are equal (`Rsi.GuessHitsIff`; `Rsi.GuessMissesTarget` is off by more than 5).
  The search checks the guess and is safe for both.
- Rounding down to a tick can undo the safety margin of an ask (`RsiSearch.TickUndoesMargin`, where the search answers
  9.25 and the quote is 9); it keeps it for all prices
  from some size on iff that size is at least 1000 / 1.001 ticks, which is 5000 / 1.001 won over the table of coins
  and 1000000 / 1.001 won over that of domestic stocks.
- A run limit below one still lets one recurring order through (`DcaRuns.LimitBelowOneStillBuys`). The bot's own callers
  refuse such a limit or drop it, so that it exists at the manager's interface only.
- On a sale of more than is held, or of nothing held, the ledgers count different profits, with the exceptions that
  `Timelines.SaleAgreesIff` lists; selling one unit twice is a profit twice in the timeline (`Timelines.SoldTwiceCountsTwice`).

## Model

| member | source | states |
|---|---|---|
| `Orders.OrderManager.GetOrderByUuid` | src/core/order_manager.py:36-45 | finds exactly what a linear scan of the list finds, and an index repaired on a miss stays sound |
| `Orders.OrderManager.HasOrder` | src/core/order_manager.py:51-56 | true iff the list tracks the id |
| `Orders.OrderManager.AddOrder` | src/core/order_manager.py:233-262 | an order with the same id is replaced, the new one comes last, the indexes stay exact |
| `Orders.OrderManager.RemoveOrder` | src/core/order_manager.py:352-360 | only that order disappears, order and indexes are kept |
| `Orders.OrderManager.UpdateOrder` | src/core/order_manager.py:264-287 | only the named fields of that order change; false exactly for an untracked id |
| `Orders.OrderManager.ReplaceOrderUuid` | src/core/order_manager.py:336-350 | the order keeps its place under the new id; the indexes stay exact unless another order has that id (what its fields hold then is `Submission.SubmissionOutcome`) |
| `Orders.OrderManager.ClearUserOrders` | src/core/order_manager.py:387-402 | exactly the user's orders go |
| `Orders.OrderManager.Reload` | src/core/order_manager.py:140-156 | list and indexes are rebuilt from rows with distinct ids |
| `Orders.ReplaceKeepsDistinct` | src/core/order_manager.py:336-350 | re-keying keeps ids distinct if and only if the new id is not another tracked order's |
| `Orders.DropKeepsValid` | src/core/order_manager.py:352-360 | dropping any set of orders from list and indexes together keeps the indexes exact |
| `Orders.AppendKeepsValid` | src/core/order_manager.py:257-259 | appending an untracked order keeps the indexes exact |
| `Orders.UpdateKeepsValid` | src/core/order_manager.py:264-271 | changing a shared order in place keeps the indexes exact and changes that row only |
| `Orders.RekeyKeepsValid` | src/core/order_manager.py:336-350 | re-keying in place keeps the indexes exact unless another order has the new id |
| `Orders.RunsKeepDistinct` | src/core/order_manager.py:233-402 | over every sequence of operations with fresh re-keying, ids stay distinct |
| `Volumes.RoundVolumeBounds` | src/core/exchanges/base.py:62-64 | a rounded volume is a whole number of lots, less than a lot below and at most half a lot (coins) or nothing (shares) above |
| `Volumes.RoundingInFigures` | src/core/exchanges/base.py:62-64 | shares are cut to whole ones, coins rounded to the nearest 0.0001 and from half way to an even multiple |
| `Volumes.RoundTheRest` | src/core/order_sync.py:155-182 | rounding what is missing tops whole lots up to the rounded total iff there is no tie or the lots so far are even |
| `Volumes.BudgetCovers` | src/core/order_execution.py:167-178 | what a budget buys costs no more than the budget, up to rounding |
| `Volumes.ReserveCoversRounding` | src/core/order_execution.py:175-178 | a reserve of a thousandth covers rounding to the nearest lot for all order sizes from some size on iff that size is at least 498.501 lots; `CoinBatch` applies it to grids |
| `Lifecycle.FillStep` | src/core/order_sync.py:531-602 | a trade is logged only in the step that stops tracking the order, and its filled volume never decreases (what becomes of a purchase and its sell is `Fills.FillOutcome` and `Fills.NothingBoughtIsLetGo`) |
| `Lifecycle.CancelStep` | src/core/order_sync.py:605-652 | a requested cancel logs at most one trade, for an order it stops tracking |
| `Lifecycle.SubmitStep` | src/core/order_sync.py:325-453 | a handled submission ends removed, re-keyed under whatever id was adopted or issued, or with a later check time; unless that id is another tracked order's, no other order is touched (field by field: `Submission.SubmissionOutcome`) |
| `Lifecycle.DuplicateIsFirstMatch` | src/core/order_sync.py:80-100 | the search for a duplicate answers the id of the first open order that matches side, price and volume, and nothing iff none matches |
| `Lifecycle.SubmitKeepsDistinct` | src/core/order_sync.py:398-407 | a submission keeps ids distinct if and only if it does not adopt the id of another tracked order |
| `Lifecycle.EqualLegsShareAnId` | src/core/order_sync.py:80-100 | two equal grid legs, one open and one to be submitted again, end under one id |
| `Submission.SubmissionOutcome` | src/core/order_sync.py:325-453 | by field values: the exchange is asked iff the order is in line, not filled, trading goes on and the price is within the limits; what it takes waits under the new id with the old price, volume and fill, and cannot be submitted again; the fifth refusal drops it, earlier ones put it off; everything else stays |
| `Submission.AnswerMeans` | src/core/order_sync.py:80-100 | the id an order gets is that of the first open order on the same side, within one in price and of the same volume, or else the one the exchange issues |
| `Submission.OutOfLineIsNotSent` | src/core/order_sync.py:325-331 | over every run in which no status answer, silence or addition puts the order in line, it is sent no time |
| `Submission.AcceptedIsSentOnce` | src/core/order_manager.py:336-350 | an accepted order waits under its new id and is not sent again in any run until a status answer, silence or an addition puts it in line |
| `Lifecycle.PollStep` | src/core/order_sync.py:712-757 | handling a status answer keeps ids distinct and logs at most one trade |
| `LifecycleRuns.StepKinds` | src/core/order_sync.py:655-794 | every step, whatever ids are adopted, tracks nothing but incoming ids and old ones for orders of the same strategy and logs at most one trade, for an id it stops tracking; ids stay distinct iff no order is taken for the duplicate of another tracked one |
| `LifecycleRuns.RunsLogOnce` | src/core/order_sync.py:531-757 | over every run in which no logged id comes back, orders adopted under tracked ids included, each id is logged at most once, never while tracked, and never after it was given up |
| `LifecycleRuns.RunsStayDistinct` | src/core/order_sync.py:655-794 | ids are distinct all along a run if and only if in none of its steps an order is taken for the duplicate of another tracked one |
| `LifecycleRuns.BudgetStep` | src/core/order_sync.py:398-453 | limit minus failures is a termination measure for refused submissions in exactly the steps in which self-adoption strikes none off, orders adopted under tracked ids included |
| `LifecycleRuns.RefusalsAreBounded` | src/core/order_sync.py:398-453 | over every run in which no given-up id comes back, an order is refused at most five times and as often again as self-adoption struck off its counter; while it is tracked, and when it is given up for refusals, the count is exact |
| `LifecycleRuns.SelfAdoptionAllowsMoreRefusals` | src/core/order_sync.py:398-407 | a concrete run, from a state with no counter set, in which one order is refused six times |
| `LinkedSells.CreatedReachesExecuted` | src/core/order_sync.py:136-230 | a created sell brings the linked total to the rounded executed volume, exactly unless at an odd tie |
| `LinkedSells.RepeatAddsNothing` | src/core/order_sync.py:136-230 | calling again with the same executed volume, as recovery does, adds no volume |
| `LinkedSells.LinkedSellsNeverOversell` | src/core/order_sync.py:136-230 | over every run with fills, retries, failures, crashes, recovery and orders adopted under tracked ids, the tracked sells of a buy never exceed the executed volume, up to rounding |
| `LinkedSells.EverySellIsAccountedFor` | src/core/order_sync.py:136-230 | over every run with fresh ids every volume ever offered for a buy is tracked or lost from sight, so all its sells together exceed the executed volume by at most what was lost |
| `LinkedSells.LostSellsAreSoldAgain` | src/core/order_sync.py:124-182 | all sells ever issued stay within the executed volume, up to rounding, iff none has been lost from sight, or a single lot has and the new sell was rounded down from a tie |
| `LinkedSells.FilledSellIsSoldAgain` | src/core/order_sync.py:124-182 | a concrete run that offers 15 shares for 10 bought, the 5 more that were lost from sight |
| `LinkedSells.VolumeOfOneMore` | src/core/order_sync.py:124-128 | the linked total counts the volumes of exactly the take-profit sells placed for the buy |
| `Fills.PurchaseRecorded` | src/core/order_sync.py:136-230 | the new sell is for what is missing, to less than a lot, at the price and with the stop found; the fill is recorded iff no sell is outstanding; no other order changes |
| `Fills.NothingBoughtIsLetGo` | src/core/order_sync.py:531-602 | a purchase is dropped, or its new volume recorded, iff no sell is outstanding; then its tracked sells cover what was bought but less than a lot, or the free balance is below what was to be sold; otherwise it stays as it was and nothing is logged |
| `Fills.FillOutcome` | src/core/order_sync.py:531-602 | every status report: done is logged with its volume and dropped, expired is put back in line or dropped, anything else or an outstanding sell keeps the order, and no other order changes |
| `Fills.StopLossOutcome` | src/core/order_sync.py:456-528 | a stop is hit iff the market price is known and below it after trailing, which never lowers it; then all that is left is sold if the order can be cancelled |
| `Fills.SilenceOutcome` | src/core/order_sync.py:719-750 | the fifth query without an answer puts the order back in line or drops it |
| `Fills.CancelOutcome` | src/core/order_sync.py:605-652 | a requested cancel drops the order iff it is only reserved or the exchange let go of it, and logs the greater of the two filled volumes, if any |
| `Fills.ClosedOutcome` | src/core/order_sync.py:312-322 | while the market is closed only the next check changes, and the status of an order that is not in line |
| `Fills.VisitOutcome` | src/core/order_sync.py:671-693 | the first pass: nothing before the order is due, then the cancel, the closed market or the submission, in this order |
| `Fills.PollOutcome` | src/core/order_sync.py:712-757 | the second pass: silence is counted; with an answer the stop comes before the fill |
| `Fills.RecoverOutcome` | src/core/order_sync.py:764-794 | recovery places the missing sell and records the fill unless the sell is outstanding |
| `Fills.CrashOutcome` | src/core/order_sync.py:219-223 | a crash between tracking the sell and recording the fill leaves the purchase as it was |
| `Fills.CleaningOutcome` | src/core/order_sync.py:296-309 | the counters of untracked orders are forgotten, and nothing else |
| `OrderTerms.TermsNeverChange` | src/core/order_sync.py:655-794 | over every run with fresh ids an order tracked under its id keeps its terms, and neither its filled volume nor its stop ever falls |
| `Fifo.KeptFits` | src/core/order_sync.py:233-258 | the kept sells fit the balance and no cancelled one would still fit |
| `Fifo.KeptDominates` | src/core/order_sync.py:233-258 | oldest first, the kept sells dominate every other selection that fits |
| `Fifo.TurnedDownMembers` | src/core/order_sync.py:249-258 | cancelled are exactly the sells not kept |
| `Fifo.AllFit` | src/core/order_sync.py:244-246 | nothing is cancelled when everything fits |
| `Fifo.ReconcileIsOptimal` | src/core/order_sync.py:233-258 | the sells are visited by time of creation, the oldest first, and the whole decision is lexicographically optimal for every balance, negative ones included |
| `Fifo.KeptIffItFits` | src/core/order_sync.py:249-258 | a sell is kept iff its unfilled volume fits into the balance less the older kept ones |
| `Fifo.CancelsTheYoungest` | src/core/order_sync.py:248-258 | every cancelled sell did not fit what the older kept ones left, and of sells with equal volumes no kept one is younger than a cancelled one |
| `Fifo.OpenAsksMembers` | src/core/order_sync.py:236-243 | exactly the open sells of the user on that market are looked at |
| `Sync.SyncEngine.CreateLinkedSellOrder` | src/core/order_sync.py:136-230 | rows and outcome are those of the step function, on every branch |
| `Sync.SyncEngine.ProcessOrderFill` | src/core/order_sync.py:531-602 | the engine's new state is that of the fill step, which `Fills.FillOutcome` gives by field values |
| `Sync.SyncEngine.CancelAndRemoveOrder` | src/core/order_sync.py:270-293 | the order goes iff the exchange cancelled it or reports it finished |
| `Sync.SyncEngine.HandleCancelRequestedOrder` | src/core/order_sync.py:605-652 | the engine's new state is that of the cancel step, which `Fills.CancelOutcome` gives by field values |
| `Sync.SyncEngine.HandleMarketClosedOrder` | src/core/order_sync.py:312-322 | outside trading hours the order waits for the next check, and only then |
| `Sync.SyncEngine.FindDuplicateOpenOrder` | src/core/order_sync.py:80-100 | the first open order with the same side, nearly the same price and the same volume, and nothing iff there is none |
| `Sync.SyncEngine.SubmitOrder` | src/core/order_sync.py:325-453 | state and verdict are those of the submission step, which `Submission.SubmissionOutcome` gives by field values |
| `Sync.SyncEngine.RecordRefusal` | src/core/order_sync.py:415-453 | the counter goes up and the order waits, or at the limit both go |
| `Sync.SyncEngine.ApplyStop` | src/core/order_sync.py:456-528 | state and verdict are those of the stop-loss step, which `Fills.StopLossOutcome` gives by field values |
| `Sync.SyncEngine.VisitOrder` | src/core/order_sync.py:671-695 | first pass over an order: the new state, and whether its status need be queried |
| `Sync.SyncEngine.PollOrder` | src/core/order_sync.py:712-757 | second pass over an order: the new state |
| `Sync.SyncEngine.CleanupStaleCaches` | src/core/order_sync.py:296-309 | counters of untracked orders go, the others stay |
| `Sync.SyncEngine.ReconcileExternalSells` | src/core/order_sync.py:233-258 | cancels exactly the sells of the optimal decision: each did not fit what the older kept ones left, and of equal sells the oldest stay |
| `SyncCycle.SyncOrders` | src/core/order_sync.py:655-761 | a whole cycle is a run of steps: caches, a visit of every order of a snapshot, a poll of the unsettled |
| `SyncCycle.StartupRecovery` | src/core/order_sync.py:764-794 | recovery is a run of recovery steps, one for each linked purchase whose status could be read |
| `SyncCycle.LinkedBuysAre` | src/core/order_sync.py:768-771 | recovery looks at exactly the tracked purchases of the RSI strategy with a target |
| `SyncCycle.VisitFirst` | src/core/order_sync.py:671-695 | visiting one more order leaves a run with fresh ids and the same orders to query |
| `SyncCycle.CycleParts` | src/core/order_sync.py:655-761 | the run of a cycle splits into cleaning, visits and polls |
| `Rsi.RsiMonotone` | src/core/indicators.py:42-50 | a higher next close never lowers the index, for every history |
| `Rsi.FlatClose` | src/core/indicators.py:42-50 | repeating the last close leaves the index alone iff the period is at least two or there was no loss |
| `Rsi.GuessIsExact` | src/core/signal_engine.py:170-202 | the algebraic guess hits the target of an index seeded with the first change, as the guess is |
| `Rsi.SeedingGap` | src/core/signal_engine.py:171-176 | averages seeded with the first change and with zero differ by the first change times ((period - 1) / period) to the number of changes |
| `Rsi.GuessHitsIff` | src/core/signal_engine.py:168-202 | for the index of the library, seeded with zero, the guess hits the target if and only if the first two closes are equal; period one has no guess |
| `Rsi.GuessMissesTarget` | src/core/signal_engine.py:168-202 | closes 10, 11, 10 and target 25: the guess is 9, the index there below 20 |
| `RsiSearch.BisectBelow` | src/core/signal_engine.py:205-235 | the price found has an index of at most the target, and every price further up than 1/2^16 of the initial bracket one above it (of what it may grow to, if the target lies below it); none means that no price can reach the target |
| `RsiSearch.BisectAbove` | src/core/signal_engine.py:237-266 | the price found has an index of at least the target, and every price further down than 1/2^16 of the initial bracket one below it (of what it may grow to, if the target lies above it); none means that no price in reach does |
| `RsiSearch.BracketMeans` | src/core/signal_engine.py:205-246 | where the search starts, in tenths and halves of the guess and the price, within its limits |
| `RsiSearch.OutOfReach` | src/core/signal_engine.py:205-256 | no answer means that no price from a ten-thousandth of the current one on, or up to ten times it, has the target |
| `RsiSearch.SearchPriceForTargetRsi` | src/core/signal_engine.py:164-266 | the current price if the target is reached already; else the guess if its index is within 0.2; else a price with the crossing within 1/2^16 of the initial bracket, or none, which means that it is out of reach; and a price on the right side of the target up to 0.2 iff the input is not a bid with period one after a loss and a target below 99.8 |
| `RsiSearch.StartingPoint` | src/core/signal_engine.py:164-167 | what comparing the target with the current index says about the index at the current price, for every period |
| `RsiSearch.FalseStartExample` | src/core/signal_engine.py:164-167 | closes 10 and 9, period one, target 30: the bid stays at 9, where the index would be 100 |
| `RsiSearch.GetPricesByRsi` | src/core/signal_engine.py:268-308 | one answer per target in order: a quoted good price, or proof that none exists |
| `RsiSearch.QuoteIsClose` | src/core/signal_engine.py:301-307 | a quote is less than a tick under 0.999 times a good answer for a bid, 1.001 times for an ask |
| `RsiSearch.QuotedBidIsSafe` | src/core/signal_engine.py:301-307 | after the buffer and rounding down to a tick a bid is below the price and its index at most 0.2 above target, after a wrong start too |
| `RsiSearch.QuotedAskIsSafe` | src/core/signal_engine.py:301-307 | an ask keeps its margin and its index when the buffered price is worth a thousand ticks |
| `RsiSearch.TicksAreTabled` | src/core/exchanges/common.py:5-36 | the two tick tables, row by row |
| `RsiSearch.AskMarginIff` | src/core/exchanges/base.py:91-97 | for a tick t, all asks from a size on keep their margin when rounded down iff 1.001 times the size is at least 1000 t |
| `RsiSearch.CoinAsksKeepMarginIff` | src/core/exchanges/common.py:5-26 | over the whole tick table of coins, iff 1.001 times the size is at least 5000 |
| `RsiSearch.KrxAsksKeepMarginIff` | src/core/exchanges/common.py:28-43 | over the whole tick table of domestic stocks, iff 1.001 times the size is at least 1000000 |
| `RsiSearch.TickUndoesMargin` | src/core/signal_engine.py:301-307 | closes 10, 10, 9, period 2, target 100/3, seeded as the library does: the search answers exactly 9.25, the quote is 9, and its index 0 |
| `WriteBehind.SyncQueue.EnqueueTask` | src/core/db_sync.py:35-55 | older tasks for the key go, the new task comes last |
| `WriteBehind.SyncQueue.ProcessQueue` | src/core/db_sync.py:67-111 | the rest of the queue is an exact suffix, the database has what went before |
| `WriteBehind.SyncQueue.DbReplace` | src/core/order_manager.py:289-334 | new row first, old row second, either through the queue if the database fails, for equal keys too |
| `WriteBehind.EnqueueIsApply` | src/core/db_sync.py:35-55 | coalescing changes nothing: replaying the new queue is replaying the old one and then the task |
| `WriteBehind.EnqueueCoalesces` | src/core/db_sync.py:45-50 | at most one task per key remains, and no other key is touched |
| `WriteBehind.DrainStopsAtFirstFailure` | src/core/db_sync.py:72-108 | everything before the stop was handled, the task at the stop was not |
| `WriteBehind.DrainPreservesKey` | src/core/db_sync.py:67-111 | a key without refused tasks keeps its replayed row |
| `WriteBehind.DrainPreservesReplay` | src/core/db_sync.py:67-111 | for every pattern of failures a pass leaves the meaning of queue and database as it was |
| `WriteBehind.RejectedTaskIsForgotten` | src/core/db_sync.py:83-100 | a refused task's key falls back to what the database held |
| `WriteBehind.DrainKeepsKeyIff` | src/core/db_sync.py:67-111 | with at most one task a key, a pass keeps the replayed row of a key iff no task of it was refused or the database agreed already |
| `WriteBehind.DirectWrite` | src/core/order_manager.py:179-204 | a write past the queue takes effect in the replay iff the queue leaves its key alone or agrees |
| `WriteBehind.ReplaceNeverLosesTheOrder` | src/core/order_manager.py:289-334 | in every interleaving the database never lacks both rows of two different ids, and at the end the old row is gone from the replay and the new one is in it if and only if the ids differ |
| `WriteBehind.SelfReplacementDeletesTheRow` | src/core/order_manager.py:303-319 | an order replaced by itself, every write accepted, is neither in the database nor in the queue |
| `WriteBehind.RunStaysDoomed` | src/core/order_manager.py:289-334 | once a replacement by itself is under way, every fair run of queue and other writers keeps the row on its way out |
| `WriteBehind.RefusedUpsertLosesTheOrder` | src/core/db_sync.py:83-100 | a queued new row that is refused for good takes the old row with it |
| `WriteBehind.RunKeepsInvariant` | src/core/order_manager.py:289-334 | the replacement's invariant survives every step of its own, of the queue and of other writers, refusals of other keys included |
| `WriteBehind.ReplaceFinishes` | src/core/order_manager.py:289-334 | whatever the database answers, three steps of its own finish a replacement |
| `Sorting.SortSorts` | manager/backend/routers/reports.py:95-103 | sorting permutes and orders |
| `Sorting.SortIgnoresOrder` | manager/backend/routers/reports.py:95-103 | with distinct keys the sorted list does not depend on the order of arrival |
| `Sorting.SortIsStable` | src/core/order_sync.py:248 | elements of which none is above another keep the order in which they arrive |
| `Ledger.BuildReportState` | manager/backend/routers/reports.py:106-182 | positions and events are those of the average-cost rules over the sorted trades |
| `Ledger.BookTrade` | manager/backend/routers/reports.py:115-178 | one trade's new position and realised event |
| `Ledger.Conservation` | manager/backend/routers/reports.py:106-155 | all cost paid is open, realised or dust, and all volume bought is held, matched or dust, for every trade list |
| `Ledger.AverageStaysWithin` | manager/backend/routers/reports.py:125-155 | quantities stay nonnegative and the average between the cheapest and dearest unit cost |
| `Ledger.WindowOnlyFilters` | manager/backend/routers/reports.py:106-182 | a window selects events of the full report and does not change positions |
| `Ledger.WindowsConcatenate` | manager/backend/routers/reports.py:106-182 | adjacent windows partition the report |
| `Ledger.ReportIgnoresArrival` | manager/backend/routers/reports.py:95-103 | trades with distinct sort keys may arrive in any order |
| `Ledger.BookedInOrder` | manager/backend/routers/reports.py:95-103 | trades are booked by time, then by id, and sales before purchases at the same time and id |
| `HoldTimes.OpenedByPurchase` | manager/backend/routers/reports.py:125-135 | a position is opened by the purchase since which more than dust has been held |
| `HoldTimes.EventsAreExact` | manager/backend/routers/reports.py:137-178 | every realised event reports a sale of what was held then, its share of the fee and the cost at the average, and the time since the position was opened |
| `Timelines.BuildTimeline` | manager/backend/routers/reports.py:1067-1165 | the batch timeline's lines are those of the rule with holding and average |
| `Timelines.OneLineEach` | manager/backend/routers/reports.py:1080-1165 | the timeline has one line, in order, for every trade with a price and more than dust of volume in the window |
| `Timelines.ComputeTimeseriesEvents` | src/core/formatters.py:987-1079 | the lines of the trades sorted by time, and their totals, won and dollars apart |
| `Timelines.SalesHaveProfits` | src/core/formatters.py:1012-1045 | exactly the sales have a profit, and none at no known average |
| `Timelines.RunningProfit` | src/core/formatters.py:1012-1045 | the running profit shown for a market is the profit of its lines so far |
| `Timelines.ChatTotalsAddUp` | src/core/formatters.py:1000-1079 | purchases and sales are all the lines, and the profits in won and in dollars all their profits |
| `Timelines.ReportAgreesWithTimeline` | manager/backend/routers/reports.py:1067-1114 | on clean trade lists both ledgers hold the same at the same cost and realise the same profit per sale |
| `Timelines.ChatAgreesWithTimeline` | src/core/formatters.py:987-1045 | without fees the chat timeline is the batch timeline line by line |
| `Timelines.ChatShowsTheTimeline` | src/core/formatters.py:987-1045 | with one trade a moment and no fees, in whatever order the trades arrive, the chat shows the lines of the batch timeline |
| `Timelines.OversoldAgreesIffBreakEven` | manager/backend/routers/reports.py:1090-1114 | on an oversold sale the ledgers agree iff it breaks even |
| `Timelines.SaleAgreesIff` | manager/backend/routers/reports.py:1090-1114 | every sale is a line of the timeline, an event of the report iff more than dust is held; the profits counted agree iff it breaks even, or takes no more than is held at a known average, or nothing is held at no average |
| `Timelines.SoldTwiceCountsTwice` | manager/backend/routers/reports.py:1090-1114 | one unit bought at 90 and sold twice at 100: a profit of 10 in the report, of 10 twice in the timeline |
| `Breakdown.Aggregate` | manager/backend/routers/reports.py:185-200 | one entry per group, each with the totals of its events |
| `Breakdown.TotalsAreExact` | manager/backend/routers/reports.py:185-200 | a group's totals are the sums of its events' amounts, their number and the number with a profit |
| `Breakdown.RowPnlIsEventPnl` | manager/backend/routers/reports.py:185-220 | a row's profit from summed amounts is the sum of its events' profits |
| `Breakdown.ReportIsConsistent` | manager/backend/routers/reports.py:140-178 | every reported event's profit is what its amounts say |
| `Breakdown.BreakdownsAgree` | manager/backend/routers/reports.py:185-342 | all breakdowns of a report add up to the same total |
| `Breakdown.StrategyRowsAgree` | manager/backend/routers/reports.py:222-287 | the profits shown by strategy and those shown by exchange both add up to the profit of all sales of the report |
| `Breakdown.BuildDailyRows` | manager/backend/routers/reports.py:291-313 | one row a day in order, and the running profit is that of all events up to the day |
| `Drawdown.BuildDrawdownStats` | manager/backend/routers/reports.py:897-921 | the running total, its peak and the one-pass drawdown of the sorted events |
| `Drawdown.ProfitRunsInTime` | manager/backend/routers/reports.py:897-908 | the running profit takes the events in order of time, each adding its own |
| `Drawdown.PeakIsGreatest` | manager/backend/routers/reports.py:905-913 | the running peak is a greatest value and is attained |
| `Drawdown.MaxDropIsQuadratic` | manager/backend/routers/reports.py:897-921 | the one-pass drawdown is the greatest fall between any two points in time, and is attained |
| `Drawdown.MaxDropPctIsQuadratic` | src/core/backtest.py:149-156 | for positive values the one-pass percentage is the greatest relative fall, and is attained |
| `Calendar.OrdinalAscends` | src/core/dca_manager.py:283-326 | year, month, day order is day-count order |
| `Calendar.NextDayIsNext` | src/core/parsers.py:148-150 | the next day is valid and one day later |
| `Calendar.DaysBeforeYearClosedForm` | src/core/dca_manager.py:312-325 | the recursive day count is the closed form of the Gregorian calendar |
| `Calendar.EpochIsThursday` | src/core/dca_manager.py:283-287 | the day count and the weekdays are anchored: 1 January 1970 is day 719163 and a Thursday |
| `NextRun.ComputeNextRunAt` | src/core/dca_manager.py:265-326 | the least scheduled instant that is wanted; an error exactly for an unknown frequency |
| `NextRun.NextDaily` | src/core/dca_manager.py:290-294 | the least daily instant |
| `NextRun.NextOnDays` | src/core/dca_manager.py:296-307 | the least instant on a target weekday; the search always ends inside its loop |
| `NextRun.NextMonthly` | src/core/dca_manager.py:309-325 | the least monthly instant, clamped to the end of a short month |
| `NextRun.NextIsUnique` | src/core/dca_manager.py:265-326 | there is only one least instant |
| `NextRun.MatchesIff` | src/core/dca_manager.py:283-325 | an instant is a scheduled one iff it is the hour and minute sharp, on a weekday of the list (Monday if empty) or the day of the month, the last of a shorter month |
| `NextRun.SomeDayMatches` | src/core/dca_manager.py:296-307 | one of the next seven days is a target day, so the fallback after the loop is unreachable |
| `NextRun.MonthRunIsNext` | src/core/dca_manager.py:309-325 | this month's run if it is still wanted, else next month's, is least |
| `NextRun.NextIsLater` | src/core/dca_manager.py:265-326 | the next run is always after now |
| `Sessions.NextRegularSession` | src/core/parsers.py:144-151 | the first opening strictly after now, in session; the walk ends because some later day trades |
| `Sessions.SessionIff` | src/core/parsers.py:137-142 | a session runs from opening to close on Monday to Friday, counted from a known Thursday, but for holidays |
| `Sessions.NoSessionIsMissed` | src/core/order_sync.py:312-322 | no moment between now (outside a session) and the next opening is in a session |
| `Sessions.NextOpeningIsStable` | src/core/order_sync.py:312-322 | asking again before the opening gives the same opening |
| `Dca.HandledMoves` | src/core/dca_manager.py:653-939 | handling a due schedule changes no other, and leaves it gone or asleep until strictly later |
| `Dca.NothingStaysDue` | src/core/dca_manager.py:653-939 | after one pass no active schedule is due |
| `DcaOrders.Decision` | src/core/dca_manager.py:670-937 | what is decided in every circumstance, with each waiting time, for an order that is the amount, or its money's worth, to less than a lot |
| `DcaOrders.BuysIff` | src/core/dca_manager.py:769-905 | an order is placed iff the bot can trade, the template has money, the order is positive, large enough and within the limits, and the exchange takes it without reporting a halt |
| `DcaOrders.BuysSomething` | src/core/dca_manager.py:769-880 | its size from both sides: the amount in whole lots, or the money, for a purchase 0.999 of it within the template, less than a lot below and rounding above; positive, large enough and let through by every limit |
| `DcaOrders.HandledFollows` | src/core/dca_manager.py:574-937 | what becomes of the schedule, its run count, its failures and the orders for every decision, and that no other schedule changes |
| `DcaRuns.HandledCounts` | src/core/dca_manager.py:574-602 | run count and orders go up together, and the schedule leaves the list iff dropped or its period ends with the limit reached |
| `DcaRuns.LimitBelowOneStillBuys` | src/core/dca_manager.py:574-602 | with a run limit below one the first order is still placed, and the schedule goes then |
| `DcaRuns.EventKeepsTally` | src/core/dca_manager.py:462-611 | every addition, removal, clearing and pass keeps run counts equal to orders placed and within what the limits permit |
| `DcaRuns.RunLimitHolds` | src/core/dca_manager.py:566-602 | over every run no schedule places more orders than its limit, or than one if the limit is lower, and one that placed them all is off the list |
| `Recurring.DcaManager.GetSchedule` | src/core/dca_manager.py:547-553 | the first schedule with the id |
| `Recurring.DcaManager.AddSchedule` | src/core/dca_manager.py:462-524 | the schedule comes last, due at its first run after now; refused exactly for an unknown frequency |
| `Recurring.DcaManager.RemoveSchedule` | src/core/dca_manager.py:555-564 | the schedule and its failure count go, nothing else |
| `Recurring.DcaManager.DeferSchedule` | src/core/dca_manager.py:566-572 | only that schedule's next run changes |
| `Recurring.DcaManager.AdvanceSchedule` | src/core/dca_manager.py:574-602 | on to the next period, or off the list at the limit |
| `Recurring.DcaManager.HandleDue` | src/core/dca_manager.py:670-767 | the new state is the one the checks in their order decide |
| `Recurring.DcaManager.OrderDue` | src/core/dca_manager.py:769-937 | sizing, limits and submission decide the new state; an order is placed iff it may be, and its volume is what the schedule asks for |
| `Recurring.DcaManager.ExecuteDueSchedules` | src/core/dca_manager.py:653-939 | a pass over the due list; nothing stays due, and the result counts the orders placed |
| `Backtest.MoneyIsConserved` | src/core/backtest.py:95-156 | after every candle cash and open cost make up the budget and the closed profit, for all parameters |
| `Backtest.AlwaysSolvent` | src/core/backtest.py:95-147 | cash never goes negative, open legs are distinct, below the count and of positive volume |
| `Backtest.NeverOverinvested` | src/core/backtest.py:120-147 | open legs never tie up more than the budget |
| `Backtest.EquityIsPositive` | src/core/backtest.py:149-152 | total equity stays positive |
| `Backtest.WorstFall` | src/core/backtest.py:149-156 | the reported drawdown is the greatest relative fall between any two moments |
| `Backtest.FinalIsBudgetPlusProfit` | src/core/backtest.py:158-160 | the final balance is budget, realised profit and the open legs' gain at the last price |
| `Backtest.TradesFollowTheRule` | src/core/backtest.py:86-147 | over all candles every open leg was bought at an RSI at or below its evenly spaced buy level for an equal share, and every trade left at a later one at or above its sell level, with prices, fees and profit |
| `Backtest.RuleIsCarriedOut` | src/core/backtest.py:92-147 | at every candle with a price and an RSI each leg at its sell level is closed, each other one stays, and each leg at its buy level is held unless less than a share is left; other candles change nothing |
| `Backtest.WinsAreProfits` | src/core/backtest.py:163-165 | the winning trades are those with a profit |
| `Backtest.SellLegs` | src/core/backtest.py:95-127 | the loop sells exactly the legs at target and keeps the others in order |
| `Backtest.BuyLegs` | src/core/backtest.py:129-147 | the loop buys the legs that are free, at or below their buy level and affordable, in order (over all candles: `Backtest.RuleIsCarriedOut`) |
| `Backtest.Simulate` | src/core/backtest.py:86-156 | the nested loops yield the account and the drawdown of the equity series |
| `Backtest.RunRsiBacktest` | src/core/backtest.py:39-179 | the result's figures, for short series, missing prices and open legs alike; every trade was entered and left by the rule |
| `Exposure.ComputeOpenExposure` | src/core/parsers.py:341-353 | the sum of price times unfilled volume, dollar orders aside |
| `Exposure.ExposureOnlyFalls` | src/core/order_manager.py:264-402 | fills, cancels, re-keying, removals and clearing never raise any user's exposure |
| `Exposure.FillingShrinks` | src/core/order_manager.py:273-277 | filling orders further never raises exposure |
| `Exposure.RemovalShrinks` | src/core/order_manager.py:352-360 | removing an order never raises exposure |
| `ExposureRuns.StepExposure` | src/core/parsers.py:341-372 | in every synchronisation step, adoption of tracked ids included, exposure changes by exactly what a newly tracked order gains, or does not go up |
| `ExposureRuns.ExposureRisesIffGain` | src/core/parsers.py:341-372 | a step raises exposure if and only if that gain is positive |
| `ExposureRuns.SellGainIsTheSpread` | src/core/order_sync.py:136-230 | a take-profit sell changes exposure by its worth less the price of what was newly filled, and raises it iff it is worth more |
| `ExposureRuns.ExposureOverRuns` | src/core/order_sync.py:655-794 | over every run exposure is at most what it was and what newly tracked orders gained |
| `ExposureRuns.FillRaisesExposure` | src/core/order_sync.py:136-230 | half a purchase of 1000 fills and its sell takes exposure to 1100 |
| `Exposure.RiskLimits` | src/core/trading_gate.py:185-220 | passes iff it is a stop loss or the daily limits and the ticker's cap hold with the order added |
| `Exposure.SingleStrategy` | src/core/trading_gate.py:76-123 | passes iff the order names no ticker, is manual or a stop loss, or no other strategy family runs on the ticker, it is not reserved, and no recurring order on it is active unless the order is one |
| `Exposure.StrategyCheckIff` | src/core/trading_gate.py:76-123 | the check strategy by strategy: RSI trading goes with its sells and the grid at RSI targets, the two grids go together, and nothing else does |
| `Exposure.CheckCanPlaceOrder` | src/core/trading_gate.py:223-251 | passes iff it is a stop loss, or trading is on and every limit holds |
| `Batch.ExecuteOrderBatch` | src/core/order_execution.py:41-132 | tracked orders, counts and orphans are those of the batch rule, for every reaction of the exchange |
| `Batch.LiveOrdersAreAccountedFor` | src/core/order_execution.py:69-127 | an order live at the exchange is tracked or reported as an orphan |
| `BatchOrders.GridTargets` | src/core/order_execution.py:165-171 | legs are priced at evenly spaced values, the first at the start of the range and the last at its end, moved to the price grid |
| `BatchOrders.GridLegAsks` | src/core/order_execution.py:169-188 | each leg is an equal share in whole lots, for purchases 0.999 of its money's worth, and is skipped iff that is no whole share |
| `BatchOrders.RsiLegAsks` | src/core/order_execution.py:260-279 | each leg with a price and a budget is worth its budget to less than a lot and is to be sold at its own target |
| `BatchOrders.RegisteredIsTracked` | src/core/order_execution.py:69-89 | an order that was registered is tracked at the end with what its leg asked for, waiting if open and reserved if the market is closed |
| `BatchOrders.CountsAreRight` | src/core/order_execution.py:54-90 | as many successes as orders registered and as many skipped as legs too small |
| `BatchOrders.OrphansAreLive` | src/core/order_execution.py:90-127 | an order is an orphan iff the exchange has it, it is not tracked, and it could not be cancelled again |
| `Batch.BatchExposure` | src/core/order_execution.py:41-132 | a batch adds at most what its legs ask for to the exposure |
| `Batch.GridWithinBudget` | src/core/order_execution.py:165-188 | a grid asks for at most 0.999 of its budget, up to rounding |
| `Batch.RsiCost` | src/core/order_execution.py:260-279 | legs at RSI targets ask for at most the sum of their budgets, up to rounding |
| `Batch.WeightsAddUp` | src/core/parsers.py:192-195 | the weights are positive, falling and sum to one |
| `Batch.SharesAddUp` | src/handlers/strategy_handlers.py:488-489 | both ways of dividing a budget give shares that add up to it |
| `Batch.GridStaysWithinCap` | src/core/order_execution.py:165-193 | one gate check covers a grid of purchases over every later run: exposure stays under the cap with the reserve to spare, but for what newly tracked orders gain and coins round up |
| `Batch.RsiStaysWithinCap` | src/core/order_execution.py:260-282 | the same for purchases at RSI targets, whose fills track take-profit sells: over every later run the cap holds but for what those gain |
| `Batch.CoinBatchMayExceedBudget` | src/core/order_execution.py:175-178 | a coin leg of 7000 that is rounded up to an order of 10000 |
| `CoinBatch.CoinLegFitsIff` | src/core/order_execution.py:175-178 | a coin purchase costs at most its budget iff its lots are not rounded up |
| `CoinBatch.CoinGridsFitIff` | src/core/order_execution.py:165-188 | all coin grids with legs of at least some size stay within their budgets iff that size is at least 498.501 lots |
| `CoinBatch.CoinGridsStayWithinCapIff` | src/core/order_execution.py:165-193 | one gate check covers all such grids without slack iff that size is at least 498.501 lots |
| `CoinBatch.CoinGridStaysWithinCapOverRuns` | src/core/order_execution.py:165-193 | and then so it does over every later run, but for what newly tracked orders gain |
| `CoinBatch.RsiCoinsCost` | src/core/order_execution.py:260-279 | a coin batch at RSI targets costs its budgets and the excess of its legs, so it stays within them iff no more is rounded up than down or left over |
| `CoinBatch.RsiCoinsStayWithinCap` | src/core/order_execution.py:260-282 | under that condition one gate check covers it without slack |

## Left out

- Telegram, HTTP routes, websockets, the Supabase client, files and SQLite: only success, failure or silence of each call is modelled.
- Floating-point error: arithmetic is over `real`.
- Order ids and tickers are numbers and tags rather than strings, and the mutable order dictionaries live in an explicit store of the manager, since they are only compared and updated; the id prefix of reserved orders is a constructor.
- The database side of the recurring orders: the executor writes a stale copy of a schedule there, so only the list in memory is modelled; carry-over marks exist only in that copy.
- A market bid by volume on Upbit or Bithumb, which reads a variable set only for bids by budget.
- The limit price of a recurring order: the price is what the environment says.
- LifecycleRuns.RunsLogOnce: assumes that the exchange neither hands out nor lists as open an id whose trade it has reported as finished. Where two orders share an id an update changes both rows of the model and one in the code, which touches neither the ids nor the number of records.
- LinkedSells.LinkedSellsNeverOversell: assumes that the buy's own id is not given to another order.
- LinkedSells.EverySellIsAccountedFor: assumes that adopted ids are the order's own or new, since of two orders under one id it cannot be said which one is lost.
- ExposureRuns.ExposureOverRuns: assumes the same, since an update of a shared id changes both rows of the model and one in the code; `LifecycleRuns.RunsStayDistinct` says when ids are shared.
- SyncCycle.SyncOrders: assumes the same, as the indexes of the order manager are exact only while ids are distinct.
- Sync.SyncEngine.VisitOrder: assumes that the id a new order receives is new; adopting another tracked id is allowed, and the indexes are then not promised to stay exact.
- Batch.GridStaysWithinCap: is about purchases; sells pass the gate with amount zero and still count in the exposure.
- WriteBehind.ReplaceNeverLosesTheOrder: assumes no task queued for either row at the start and no queued task of the two refused for good; direct writes may be refused, and `WriteBehind.RefusedUpsertLosesTheOrder` says what a refused queued row does.
- Timelines.ReportAgreesWithTimeline: is about trades in time order without overselling, with volumes and averages above the tolerance; `Timelines.SaleAgreesIff` is about every sale.
- Loss of the failure counters when the process restarts, and the lost window between an accepted order and its tracking.
- Concurrent changes between the two passes of a cycle other than those in `Lifecycle.Event`.
- Conversions between time zones and Unix time, the year 9999, and parsing and printing of schedule texts.
- Percentages and averages of the statistics, and the time series of the drawdown report.
- Rounded figures for display: money, percentages, durations, ranks, bar widths and labels.
- Holdings valued at current prices, group and batch counters, template matching, confirmation tokens and pagination: they would only add easy members.
- Split sells at RSI targets, which share the batch loop with the purchases and have no budget to bound.

# The backtest engine, verified

A Dafny model of tikr's backtest engine (`crates/tikr-backtest`) and of the account banking of the
orchestrator (`apps/tikr/src/state.rs`), with proofs of what they promise. `dafny verify dfyconfig.toml`
checks all of it.

The engine replays recorded order-book rows and trades to a strategy, sends the strategy's orders through a
simulated venue (latency queue, admission gates, resting orders with a place in the queue, immediate orders
that walk the book, public trades that fill resting orders), and keeps the books of the resulting fills.

## How the model is laid out

| file | what it holds |
|---|---|
| Decimals, Core | rounding to eight decimals, half to even; the shared data types; sums and filters |
| Pnl, Liquidation | the position tracker and the liquidation model, as classes, and what they account for |
| Reports | the lines of the final report |
| Book | the price levels of a book, the walk of an immediate order, and why it is optimal |
| Venue | one step of the simulated venue as functions on values; every gate rescans the resting orders |
| FillSim | the simulator as the object it is in the source, with its two caches, updated in place; every method is proved to do what `Venue` says |
| Admission, Reach, Upkeep | in plain prices and sums: what the gates admit, which orders a trade reaches, what time and snapshots do |
| Matching, QueuePosition, Takers, Lifecycle, Margin, Balances, Solvency, Reconciliation, Dropping, OpenQuotes | what one step of the venue keeps, conserves and respects |
| Queue, Lifetime, Cancels | the latency queue; the life of one order; what a cancel keeps away |
| Cover, Fees | spot solvency with immediate orders; whether the cash reserved for fees lasts |
| Runs | whole runs: any list of events, any strategy, any latency, any noise |
| Replay, LoadOrder, Survey, Retrace | the loaded history: its order, its replay, and the synthetic tail that walks the price back |
| Tape | what the replay emits, event by event, and which orders a recorded trade fills |
| Runner, Backtest | the engine loop over a replay, and the theorems of `Runs` for whole backtests |
| Counterexamples | runs on which a promise fails |
| Banking | the live views, banked views, retired totals and persisted session of the account |
| Boards | what each call does to the dashboard, bot by bot |

How the source's ideas are rendered:

- A decimal is a `real`. The explicit rounding of the source is the parameter `Rounding`: `Dp8` rounds to
  eight decimals, half to even, and `Exact` does not round. `HalfUlp` is half a unit of the last place, and
  zero for `Exact`, so one theorem with `HalfUlp` in its bound covers both.
- 64-bit times saturate as in the source (`SatAdd`, `SatMul`).
- The strategy, the latency jitter, the decay factor and the choice of silently cancelled orders are
  arbitrary inputs. A strategy is any sequence of answers to the events, so every adaptive strategy is covered.
- The library's stable sorts are insertion sorts, fresh order ids are a counter, and the 128-bit fingerprint
  of the open quotes is the sequence it folds, which treats it as free of collisions.
- `submittedAt`, on pending operations, resting orders and fills, is not in the source. It records the time of
  the event on which the order was decided, so that look-ahead can be stated.
- Prices and sizes of orders are positive and sizes in snapshots are not negative, as everywhere in the
  source. What a theorem needs beyond that -- one symbol, cash on the eight-decimal grid, room on the
  clock -- is in its row.

## What turned out to be false

Each of these comes with an input that shows it and with the condition under which the property holds.
The inputs in `Counterexamples` and `OpenQuotes` are runs from an empty venue, with a cash balance at most.

- The cached open quotes can be stale. The fingerprint does not tell a resting order from a pending replace of
  the same id, and only the resting one is hidden for a manager. `OpenQuotes.StaleAfterManagerReplace` is a run
  on which a manager's order is replaced by itself and silently cancelled: the fingerprint is the same, the
  view is not. With the fingerprint unchanged the cache shows the right orders if, and for distinct orders only
  if, the same ones are hidden (`OpenQuotes.FreshIffFlagsAgree`); a caller sees to it by not replacing managers'
  orders and letting no folded id join or leave the managers (`OpenQuotes.CacheFreshUnlessManagersMove`).
- The comments say that the fingerprint captures every change that can alter the output and that the cached
  view is bit-for-bit the plain one. Time in force is part of the output and is not folded:
  `OpenQuotes.TimeInForceNotFolded` is a run on which an order in flight comes to rest. The view is bit for bit
  the cached one exactly if, besides, time in force and shape agree entry by entry (`OpenQuotes.BitForBitIff`),
  which sending only post-only points guarantees (`OpenQuotes.BitForBitForMakers`).
- A cancel is meant to withdraw whatever is pending under its id. Operations due at the same event have left the
  queue before the first of them is applied, so a replace due after the cancel brings the order back:
  on `Counterexamples.CancelUndoneInBatch` it does or does not, depending on whether a heartbeat falls between
  the two. A cancel holds, over any run, exactly if no later operation due at its own event puts an order to
  rest under the id for good (`Cancels.CancelHolds`).
- Immediate orders reserve nothing, so an admitted one can leave resting orders uncovered: on
  `Counterexamples.ImmediateOrdersBreakSolvency` a bid rests on a balance of 100, an ask appears and is bought
  with that balance. A fill keeps the account solvent exactly if it leaves the cash, or the holdings, that the
  resting orders count on (`Cover.TakeSolventIff`), and a run of resting and immediate orders is solvent
  throughout exactly if every immediate fill in it does (`Cover.SolventIffCovered`).
- The maker fee reserved for a bid is meant to keep a ladder of bids from filling cash negative. What already
  rests is counted without its fees, so a balance of 201 admits two bids of 100 at a fee of 1% and ends at -1
  (`Counterexamples.LadderFillsNegative`); and an immediate order reserves the maker fee and pays the taker fee
  (`Counterexamples.TakerFeeUnreserved`). A bid leaves room exactly if cash also holds the fees of the bids
  resting (`Fees.GateMissesFees`), and a run keeps cash for all bids and their fees, hence never negative,
  exactly if every order in it leaves room (`Fees.BackedIffRoom`).
- A trade can eat more queue than the level shows. Every order at a level waits behind all of it, and two of
  them are charged the same queue (`Counterexamples.QueueEatenTwice`: 20 eaten of 10). No trade eats more than
  the level holds exactly if the queues of the orders there add up to no more (`QueuePosition.EatenWithinLevelIff`).
- Reconciling with the venue can leave two resting orders with one id (`Counterexamples.ReconcileClashes`); this
  happens exactly when an imported order's id already rests under another symbol
  (`Reconciliation.ReconcileUnique`).
- A short whose wallet and entry value together are not positive is never liquidated, however far under
  water it is (`Liquidation.UnderwaterShortNeverFires`). It does not take a negative wallet: a short opened at a
  price that rounds to zero, with an empty wallet, is one (`Liquidation.EmptyWalletShortNeverFires`).
  `Liquidation.TriggerIsMarginInequality` gives the exact condition; when neither wallet nor entry is negative,
  the exception is exactly a short with both of them zero.
- The forced close is solvent exactly when the close fee rate is at most the maintenance margin rate
  (`Liquidation.CloseSolvent`); `Liquidation.InsolventClose` is a long of 1 at 100 that ends at -0.1.
- The average entry of an open position is zero when its opening price rounds to zero, as 10^-9 does
  (`Pnl.OpeningEntryZero`); with prices that round to something positive, zero entry means flat
  (`Pnl.ZeroEntryIffFlat`).
- An order can go live at the time of the event it was decided on, at the very last 64-bit time and only then
  (`Lifecycle.SubmitIsLater`): on `Counterexamples.LastInstantLooksAhead` the trade it was decided on fills it.
- The retrace is documented to step by the data's median move between consecutive mids. The move into the last
  snapshot is left out of that median, because a snapshot is only counted when a later one follows. On the three
  snapshots of `Retrace.MedianLeavesLastMoveOut` the step is one tick and should be two;
  `Retrace.MedianOfAllIff` says exactly when the two medians agree.

## Model

| member | source | states |
|---|---|---|
| Backtest.WholeBacktest | crates/tikr-backtest/src/runner.rs:21-75 | For any sorted history, any strategy, latency and noise, from an empty venue: every fill is later than the event its order was decided on; the queue is sorted, at each time in submission order, and its due part is exactly what is due by any time; the order cap holds at the end; and in spot mode the tracker's reported profit at any mark is the change in cash plus the change in holdings at that mark: exactly in exact arithmetic, within the half-units of the fills otherwise. Times must be short of the last 64-bit value and, with rounding, cash must start on a multiple of 10^-8. |
| Backtest.BacktestSolvent | crates/tikr-backtest/src/fill_sim.rs:1067-1110 | A maker-only spot backtest that starts with no debt ends with holdings covering its resting asks and cash, fees apart, covering its resting bids. With rounding, cash must start on a multiple of 10^-8. |
| Backtest.DrainGood | crates/tikr-backtest/src/replay.rs:993-1108 | Whatever the replay emits from data without negative sizes has no negative size in any snapshot and stays short of the end of the clock. Recorded times must be below the last 64-bit value. |
| Runner.Run | crates/tikr-backtest/src/runner.rs:21-75 | The engine loop over a replay object and a simulator object ends, consumes every event, leaves the simulator in the state the run of values reaches, and reports the tracker's account of exactly that run's fills at the last two-sided mid. |
| Runner.LastMidIs | crates/tikr-backtest/src/runner.rs:46-51 | The mark of the report is halfway between the first bid and first ask of the last snapshot listing both, zero exactly if there was none. |
| Runner.SubmitOrders | crates/tikr-backtest/src/runner.rs:64-67 | Submitting a strategy's actions in turn is the fold of single submissions, and keeps the commitment cache coherent. |
| Runner.ApplyFills | crates/tikr-backtest/src/runner.rs:68-71 | Giving the tracker the fills of one event in turn extends its account by exactly those fills. |
| Runs.NoLookAhead | crates/tikr-backtest/src/runner.rs:40-74 | Over any chronological run short of the last 64-bit time, for any latencies including zero, every fill carries a time strictly later than the event on which its order was decided; queued and resting orders keep the same property, and a sorted queue stays sorted. |
| Runs.RunSorted | crates/tikr-backtest/src/fill_sim.rs:758-828 | In every reachable state the queue is sorted by scheduled time and, at each time, holds a part of what was submitted for that time, in the order submitted. |
| Runs.RunAppliesDue | crates/tikr-backtest/src/fill_sim.rs:942-956 | After any run, the next event applies exactly the operations due by its time, in queue order, and leaves the others in their order, save those withdrawn by a cancel or replace that was applied. |
| Queue.EventQueue | crates/tikr-backtest/src/fill_sim.rs:942-1024 | The same for one event: the queue afterwards is the undue operations in their old order without those carrying an id that a due cancel or replace named. |
| Cancels.CancelInBatch | crates/tikr-backtest/src/fill_sim.rs:942-1024 | After operations applied together, among them a cancel, something rests under its id exactly if one after the cancel puts an order there and none after that takes it away. |
| Cancels.CancelledExactly | crates/tikr-backtest/src/fill_sim.rs:1004-1022 | A cancel leaves exactly the orders under other ids and the operations that do not carry the id; a cancel of all leaves exactly the managers' orders and every operation. |
| Cancels.CancelHolds | crates/tikr-backtest/src/fill_sim.rs:1333-1353 | The same for the event, trade included, and over any run that follows without requoting the id: unless it is so brought back, nothing rests under the id, is filled under it, or waits in the queue to; if it is, it rests or is filled by the end of the event. |
| Cancels.TradeRests | crates/tikr-backtest/src/fill_sim.rs:1565-1754 | After a trade an id rests or has been filled exactly if it rested before. |
| Counterexamples.CancelUndoneInBatch | crates/tikr-backtest/src/fill_sim.rs:942-1024 | A cancel and a slower replace sent together: applied at one event the order rests again, with a heartbeat between them nothing does. |
| Lifetime.OrderLifetime | crates/tikr-backtest/src/fill_sim.rs:840-872 | Over any run, the fills of a resting order together with what is left of it never add up to more than its size, and what is left is the same order, no larger and no further back in the queue, until it is requoted. |
| Cover.SolventIffCovered | crates/tikr-backtest/src/fill_sim.rs:1067-1299 | A spot run on one symbol with resting and immediate orders mixed is solvent after every operation and every event if and only if every immediate fill in it left the cash, or the holdings, that the resting orders count on. With rounding, cash must start on a multiple of 10^-8. |
| Fees.BackedIffRoom | crates/tikr-backtest/src/fill_sim.rs:1067-1110 | In exact arithmetic, for a maker fee or rebate of up to 100%, a spot run on one symbol keeps cash for every resting bid with its maker fee and holdings for every resting ask, after every operation and event, if and only if every order left room for that when it was admitted or filled; and then cash and holdings, all fees paid, are never negative. |
| Runs.TwoBooksAgree | crates/tikr-backtest/src/pnl.rs:94-204 | Over any spot run on one symbol and at any mark, the tracker's net profit equals the simulator's change in cash plus holdings at the mark, and the simulator's position equals the signed sum of fills and the tracker's size; rounding may separate them by no more than a bound computed from the fills, which is zero in exact arithmetic. With rounding, cash must start on a multiple of 10^-8. |
| Runs.RunBooked | crates/tikr-backtest/src/fill_sim.rs:1252-1300 | Over any run the change in cash, holdings, position and fees is what the emitted fills add up to, through maker fills, taker fills, fees and rebates. With rounding, cash must start on a multiple of 10^-8. |
| Runs.TrackerTally | crates/tikr-backtest/src/pnl.rs:94-155 | The tracker's size and fees are the signed sum and the fee sum of the fills, within the stated rounding, and its funding is untouched by them. |
| Runs.AlwaysSolvent | crates/tikr-backtest/src/fill_sim.rs:1067-1110 | In every reachable state of a spot run with resting orders only and a maker fee that is no rebate, holdings cover the resting asks and cash plus fees charged covers the resting bids, up to half-units per fill that vanish in exact arithmetic. With rounding, cash must start on a multiple of 10^-8. |
| Runs.AlwaysCapped | crates/tikr-backtest/src/fill_sim.rs:1040-1053 | No reachable state rests more orders on a symbol than the configured cap. |
| Pnl.PositionTracker.Apply | crates/tikr-backtest/src/pnl.rs:94-155 | The four branches on the tracker's fields (open, add, reduce, flip), with unsigned sizes as in the source, do to the account what the signed formulas say. |
| Pnl.ResumeContinues | crates/tikr-backtest/src/pnl.rs:62-83 | A tracker restored from a snapshot taken after some fills ends, after the rest, where one that saw them all ends. |
| Pnl.FundingStandsApart | crates/tikr-backtest/src/pnl.rs:85-91 | Funding goes straight into net profit and into nothing else, whatever fills follow. |
| Pnl.LostFillsStayLost | crates/tikr-backtest/src/pnl.rs:162-176 | After forcing the position that some lost fills led to, size and entry are for good those of a tracker that saw the fills, and exactly what these realized and cost in fees stays missing. |
| Pnl.AppliedOnBooks | crates/tikr-backtest/src/pnl.rs:94-155 | What a fill does in each of the four cases, and that every stored number stays a multiple of 10^-8 with a flat account at entry zero. |
| Pnl.LedgerAgrees | crates/tikr-backtest/src/pnl.rs:94-204 | For any fills, realized profit less size times entry equals the plain cash flow of the fills up to half a unit times the sum of sizes after adds plus the number of reducing or flipping fills; exactly, without rounding. |
| Pnl.LedgerStep | crates/tikr-backtest/src/pnl.rs:115-154 | The same for one fill: an add may slip by half a unit per unit held, a reduction or flip by half a unit, an opening fill not at all. |
| Reports.ReportLines | crates/tikr-backtest/src/pnl.rs:194-215 | Of the report of any fills: realized profit, fees and funding do not depend on the mark; the fees are those of the fills; marked at the entry nothing is unrealized, and two marks differ in unrealized profit by position times difference, within a unit. |
| Reports.FlatReport | crates/tikr-backtest/src/pnl.rs:194-215 | Once flat, the report shows nothing unrealized and as realized the cash flow of the fills, exactly in exact arithmetic. |
| Pnl.EntryInRange | crates/tikr-backtest/src/pnl.rs:115-154 | In every reachable state that is not flat the average entry lies between two of the rounded prices of the opening and adding fills since the position was last flat or flipped, in spite of rounding at every add. |
| Pnl.ZeroEntryIffFlat | crates/tikr-backtest/src/pnl.rs:115-154 | If every price rounds to something positive, the entry is zero exactly when the position is flat. |
| Pnl.EntrySignOfPrices | crates/tikr-backtest/src/pnl.rs:115-154 | The entry of an open position is positive if all the prices that built it round to something positive, and zero if they all round to zero. |
| Pnl.OpeningEntryZero | crates/tikr-backtest/src/pnl.rs:115-120 | An opening fill leaves entry zero exactly when its price rounds to zero, which a price of 10^-9 does. |
| Liquidation.LiquidationModel.Check | crates/tikr-backtest/src/liquidation.rs:110-147 | Fires exactly when the closed-form price is reached, returns the closing fill at that price with its fee, and counts it; otherwise changes nothing. |
| Liquidation.TriggerIsMarginInequality | crates/tikr-backtest/src/liquidation.rs:75-147 | Where the closed form gives a price, the trigger fires on every mark half a unit of price beyond the margin inequality, on every eight-decimal mark at which wallet plus unrealized profit is at most the maintenance margin, and on no mark that misses it by more than half a unit; without rounding, exactly on the inequality. A price is missing exactly for a short whose wallet and entry value together are not positive: with neither negative, a short with both zero. |
| Liquidation.UnderwaterShortNeverFires | crates/tikr-backtest/src/liquidation.rs:75-102 | A concrete short under water that the closed form never liquidates. |
| Liquidation.EmptyWalletShortNeverFires | crates/tikr-backtest/src/liquidation.rs:75-102 | One sale at 10^-9 from flat opens a short at entry zero that, with an empty wallet, is under water at every mark and never liquidated. |
| Liquidation.CloseLeavesMaintenanceMargin | crates/tikr-backtest/src/liquidation.rs:128-146 | Applying the returned fill to the tracker leaves it flat with the wallet at size times price times margin rate less the fee, up to rounding of the price and the profit. |
| Liquidation.CloseSolvent | crates/tikr-backtest/src/liquidation.rs:128-146 | The wallet after the close is not negative if and only if the close fee rate is at most the maintenance margin rate. |
| Liquidation.InsolventClose | crates/tikr-backtest/src/liquidation.rs:128-146 | A long of 1 at 100 with 0.4 in the wallet, closed at 100 at a margin rate of 0.4% and a fee of 0.5%, ends with the wallet at -0.1, rounded or not. |
| Book.WalkBookIoc | crates/tikr-backtest/src/fill_sim.rs:212-257 | The loop over the sorted levels consumes exactly the specified walk. |
| Book.WalkOptimal | crates/tikr-backtest/src/fill_sim.rs:212-257 | The walk takes the smaller of the order's size and the depth within its limit, never beyond the limit, and no other way of taking that quantity from the levels is cheaper (for a seller: earns more). |
| Book.LevelsSorted | crates/tikr-backtest/src/fill_sim.rs:225-233 | The sorted copy holds each level of the unordered map exactly once, in strictly worsening price order. |
| Book.WalkLeaves | crates/tikr-backtest/src/fill_sim.rs:1245-1251 | Each level drops by exactly what the walk took from it, none below zero, and the other side of the book is untouched. |
| Takers.TakeOutcome | crates/tikr-backtest/src/fill_sim.rs:1206-1299 | An immediate order fills exactly if something (for fill-or-kill: everything) is within its limit, for the smaller of its size and that depth; a fill-or-kill fill is complete; without a fill nothing changes; with one, levels drop by what was taken and no resting order moves. |
| Takers.FillableIsOffered | crates/tikr-backtest/src/fill_sim.rs:212-257 | What an immediate order could fill is what the other side offers at its limit or better, each level once; an immediate-or-cancel order fills exactly if something is offered there. |
| Takers.TakerFillSays | crates/tikr-backtest/src/fill_sim.rs:1232-1299 | The fill carries a fresh id, the order's side, the rounded average price of what was taken, the taker fee on its cost, and whether it is the whole order. |
| Book.TouchStays | crates/tikr-backtest/src/fill_sim.rs:183-208 | Taking levels does not move the touch, which is that of the last snapshot. |
| Matching.PriorityOrder | crates/tikr-backtest/src/fill_sim.rs:1592-1623 | The order of service holds exactly the eligible orders -- those at the trade price or better on the side it hits (`Reach.TradeReaches`) -- each once, best price first and oldest first at one price. |
| Matching.PriceTimePriority | crates/tikr-backtest/src/fill_sim.rs:1565-1754 | If the trade touches an order, every order before it in price and time is completely filled; trade left over means every eligible order is. |
| Matching.TradeConserved | crates/tikr-backtest/src/fill_sim.rs:1565-1754 | Trade size is the fills plus the queue eaten plus what is left; queue is eaten at the exact trade price only; anything left means every eligible order is drained. |
| QueuePosition.QueueEaten | crates/tikr-backtest/src/fill_sim.rs:1630-1674 | What a trade eats of the queue is what the queues of the orders at its level fall by: never more than they add up to, and all of it for a trade large enough. |
| QueuePosition.EatenWithinLevelIff | crates/tikr-backtest/src/fill_sim.rs:1649-1674 | No trade at a price eats more queue than a level holds if and only if the queues ahead of the orders there add up to no more. |
| QueuePosition.LevelFallsByEaten | crates/tikr-backtest/src/fill_sim.rs:1649-1674 | Then the level falls by exactly what the trade ate; nothing is cut off at zero. |
| Counterexamples.QueueEatenTwice | crates/tikr-backtest/src/fill_sim.rs:1301-1320 | Two orders sent behind a level of 10 wait behind 10 each, and one sale of 25 eats 20. |
| Matching.OrderAfterTrade | crates/tikr-backtest/src/fill_sim.rs:1625-1751 | Every order is later the same order with no more size and no more queue, untouched if the trade cannot reach it, and removed exactly if its size is zero. |
| Reach.TradeReaches | crates/tikr-backtest/src/fill_sim.rs:1592-1751 | In plain prices: a sale changes only bids at its price or above, a purchase only asks at its price or below; if any of the trade is left over every such order is completely filled and gone; and an order is touched only if those with a better price, and older ones at its own, are completely filled. |
| Reach.FirstInLineFills | crates/tikr-backtest/src/fill_sim.rs:1625-1740 | The first in line gets the smaller of its size and what is left for it -- the whole trade if it went through its price, whatever its queue, and what exceeds its queue if it was at its price -- and the first fill says so, at its own price, with its fee and whether it is filled whole. |
| Reach.EmptyTrade | crates/tikr-backtest/src/fill_sim.rs:1573-1578 | A trade without price or size does nothing. |
| Tape.TradeFillsOtherSide | crates/tikr-backtest/src/fill_sim.rs:1815-1828 | A trade fills only orders on the other side and leaves its own side and other symbols as they rest. |
| QueuePosition.TradeNotDoubleCounted | crates/tikr-backtest/src/fill_sim.rs:1534-1674 | After a trade, a snapshot that shows at least the trade-adjusted size at an order's level leaves its place in the queue exactly as the trade left it. |
| QueuePosition.QueueComesFirst | crates/tikr-backtest/src/fill_sim.rs:1636-1677 | A trade at an order's own price fills it with at most what exceeds the queue ahead of it. |
| QueuePosition.NewOrderWaits | crates/tikr-backtest/src/fill_sim.rs:1301-1320 | An accepted order joins at the back: a trade at its price no larger than what the book showed there leaves it whole and resting, and the others were not moved by its arrival. |
| Margin.MarginExactly | crates/tikr-backtest/src/fill_sim.rs:1111-1199 | A resting order past the order cap and the post-only check is refused for margin exactly when resting it would take position plus all resting bids, or position less all resting asks, beyond buying power; what is accepted leaves both within it, and a refusal rests nothing. |
| Admission.CommitmentIsSum | crates/tikr-backtest/src/fill_sim.rs:434-458 | With any symbols mixed, the commitment scan is the sum of notional and size over the symbol's resting bids and asks. |
| Admission.CapAndTouch | crates/tikr-backtest/src/fill_sim.rs:1040-1066 | Refused for the order cap exactly if the order would rest and the symbol already rests that many; otherwise refused as crossing exactly if it is post-only and at or through the opposite touch. |
| Admission.SpotExactly | crates/tikr-backtest/src/fill_sim.rs:1067-1110 | Past these, a spot bid is refused exactly if the symbol's resting bids and its own reserve exceed cash, an ask exactly if the resting asks and its own size exceed holdings, an immediate order being held against the bare balances; everything else is accepted. |
| Admission.FuturesExactly | crates/tikr-backtest/src/fill_sim.rs:1111-1199 | Past these, a futures order is refused for margin exactly if position plus all bids, or less all asks, would exceed wallet times leverage, and else for the position cap exactly if the position with this order filled would exceed the fixed cap or the fraction of the wallet. |
| Admission.PlacedExactly | crates/tikr-backtest/src/fill_sim.rs:1301-1321 | A refused order is reported with its reason and changes nothing else; an accepted one rests last, whole, behind the size the book shows at its price. |
| Admission.ReplacedExactly | crates/tikr-backtest/src/fill_sim.rs:953-1003 | An accepted replace leaves the new order last and the first order under its id gone, and the others as they were. |
| QueuePosition.BooksAfterBites | crates/tikr-backtest/src/fill_sim.rs:1649-1674 | A trade lowers the book's level at its price by exactly the queue it ate there, and no other level. |
| Lifecycle.EventStep | crates/tikr-backtest/src/fill_sim.rs:840-872 | After any event every resting order is an earlier one, no larger and no further back, or comes from an operation that was due; sizes, prices and queues stay sound, and nothing is queued that was not. |
| Lifecycle.DecayImproves | crates/tikr-backtest/src/fill_sim.rs:887-912 | Decay never moves an order back and never makes the queue negative. |
| Lifecycle.AttributionImproves | crates/tikr-backtest/src/fill_sim.rs:1534-1562 | Attributing a shrunken level to cancels never moves an order back and never makes the queue negative. |
| Upkeep.DecayExactly | crates/tikr-backtest/src/fill_sim.rs:887-912 | Every queue shrinks by the factor exactly if decay is on, time has passed since the last event and the factor is below one. |
| Upkeep.SilentExactly | crates/tikr-backtest/src/fill_sim.rs:914-940 | Exactly the orders chance picked vanish, if silent cancels are on and time has passed; the event time is recorded in any case. |
| Upkeep.QuietEvent | crates/tikr-backtest/src/fill_sim.rs:840-872 | A heartbeat, or a fill from elsewhere, on an empty queue is exactly decay, then silent cancels. |
| Upkeep.BookShowsSnapshot | crates/tikr-backtest/src/fill_sim.rs:1483-1533 | After a snapshot the book of its symbol shows exactly its levels, each on its side, and its first levels as touch; other books are the same. |
| Upkeep.SnapshotMovesUp | crates/tikr-backtest/src/fill_sim.rs:1534-1562 | A snapshot moves an order up, in proportion, exactly if it is of its symbol, lists levels down to its price, and shows its level smaller but not gone. |
| Lifecycle.FillsAreLater | crates/tikr-backtest/src/fill_sim.rs:840-872 | All fills of one event are later than the event their order was decided on and no later than this one. |
| Lifecycle.SubmitIsLater | crates/tikr-backtest/src/fill_sim.rs:758-803 | A quote or requote is scheduled strictly after the event it was decided on if and only if the clock is not at its last value. |
| Counterexamples.LastInstantLooksAhead | crates/tikr-backtest/src/fill_sim.rs:758-803 | At the last 64-bit time an order decided on a trade is filled by that trade. |
| Lifecycle.SubmitIsFifo | crates/tikr-backtest/src/fill_sim.rs:758-828 | Submitting keeps the queue sorted by scheduled time and puts the new operation after all others of the same time. |
| Lifecycle.EnqueueIsFifo | crates/tikr-backtest/src/fill_sim.rs:810-828 | A placement that carries the venue's id keeps the queue sorted, goes behind everything of its own time, and is scheduled strictly after now unless the clock is at its last value. |
| Upkeep.ScheduledExactly | crates/tikr-backtest/src/fill_sim.rs:758-803 | Saturation inside the latency arithmetic comes to one limit at the end: a quote or requote takes effect after submit latency and jitter, at least a nanosecond later; a cancel, of one or of all, after cancel latency and jitter; nothing else is queued. |
| Upkeep.EnqueuedExactly | crates/tikr-backtest/src/fill_sim.rs:810-828 | A placement with the venue's id is scheduled like a quote and keeps the id. |
| Balances.EventBooked | crates/tikr-backtest/src/fill_sim.rs:840-872 | One event moves cash, holdings and position by exactly what its fills say, within their rounding. |
| Balances.SettledExactly | crates/tikr-backtest/src/fill_sim.rs:1252-1275 | Booking a fill moves the signed position; in spot mode cash pays or receives the notional and then pays the fee, and holdings move by the size, each rounded; outside spot mode neither moves. |
| Balances.TakeBooked | crates/tikr-backtest/src/fill_sim.rs:1252-1300 | Though it is emitted at a rounded average price, a taker fill moves cash, holdings and position as the fill says, within half-units of its notional, size and price. |
| Solvency.CommitmentIsResting | crates/tikr-backtest/src/fill_sim.rs:434-458 | On one symbol the commitment scan is the value of all resting bids and the size of all resting asks. |
| Solvency.PlaceSolvent | crates/tikr-backtest/src/fill_sim.rs:1067-1110 | Accepting a resting order through the spot gate keeps solvency. |
| Solvency.ReplaceSolvent | crates/tikr-backtest/src/fill_sim.rs:953-1003 | So does a replace, accepted or refused. |
| Solvency.TradeSolvent | crates/tikr-backtest/src/fill_sim.rs:1710-1739 | So do partial and full maker fills, fees included. |
| Solvency.EventSolvent | crates/tikr-backtest/src/fill_sim.rs:840-872 | So does a whole event, with decay, silent cancels, due operations, and a trade or snapshot. |
| Fees.ApplyBackedIff | crates/tikr-backtest/src/fill_sim.rs:942-1024 | One operation, replaces and immediate orders included, keeps what rests backed with its fees exactly if it leaves room. |
| Fees.TradeBacked | crates/tikr-backtest/src/fill_sim.rs:1710-1739 | Maker fills never use more than what was set aside for them with their fee. |
| Fees.GateMissesFees | crates/tikr-backtest/src/fill_sim.rs:1084-1110 | A bid the gate admits leaves room exactly if cash holds the new bid with its fee and the resting bids with theirs; with no maker fee, or a rebate, it always does. |
| Counterexamples.LadderFillsNegative | crates/tikr-backtest/src/fill_sim.rs:1084-1110 | At a maker fee of 1% a balance of 201 admits two bids of notional 100, and filling them leaves -1. |
| Counterexamples.TakerFeeUnreserved | crates/tikr-backtest/src/fill_sim.rs:1084-1110 | With no maker fee and a taker fee of 1%, a balance of 100 admits an immediate buy of 100, which leaves -1. |
| Counterexamples.ImmediateOrdersBreakSolvency | crates/tikr-backtest/src/fill_sim.rs:1067-1110 | The run: cash 100, a bid of 1 at 100 comes to rest, an ask of 1 at 100 appears, an immediate buy takes it; the bid still rests and no cash is left. |
| Cover.TakeSolventIff | crates/tikr-backtest/src/fill_sim.rs:1206-1299 | A filled immediate order keeps solvency if and only if resting bids are at most cash plus fees less what the walk costs, or resting asks at most holdings less what it sells, with half-units for rounding. |
| Cover.ApplySolventIff | crates/tikr-backtest/src/fill_sim.rs:942-1024 | So for any operation, replaces included: solvency is kept exactly if its immediate fill, if any, is covered in the state in which it meets the gates. |
| Solvency.EventCapped | crates/tikr-backtest/src/fill_sim.rs:1040-1053 | One event never takes a symbol over the cap. |
| Solvency.RefusedReplaceRestores | crates/tikr-backtest/src/fill_sim.rs:953-1003 | A refused replace leaves the same resting orders, with price, size and place in the queue, though the order was evicted before it was gated. |
| Solvency.RefusedReplaceGoesLast | crates/tikr-backtest/src/fill_sim.rs:981-992 | The order a refused replace puts back rests last, behind every other order in time. |
| OpenQuotes.ViewIsShown | crates/tikr-backtest/src/fill_sim.rs:574-733 | The open-quote view is the sequence the fingerprint folds, less the orders hidden for managers. |
| OpenQuotes.ViewHolds | crates/tikr-backtest/src/fill_sim.rs:574-623 | The view holds exactly the symbol's resting orders that are no manager's, as post-only points, then its placements in flight that bring no manager's id and its replaces, as asked for. |
| OpenQuotes.FreshIffFlagsAgree | crates/tikr-backtest/src/fill_sim.rs:675-755 | With the fingerprint unchanged, the cached view is the current one if, and for distinct orders only if, the same orders are hidden. |
| OpenQuotes.CacheFreshUnlessManagersMove | crates/tikr-backtest/src/fill_sim.rs:675-755 | If no manager's order is in a pending replace and managers did not change for the folded ids, an unchanged fingerprint means an unchanged view. |
| OpenQuotes.StaleAfterManagerReplace | crates/tikr-backtest/src/fill_sim.rs:574-623 | A run from an empty venue, without a manager coming or going, after which fingerprint and managers are as before and the view is not. |
| OpenQuotes.TimeInForceNotFolded | crates/tikr-backtest/src/fill_sim.rs:666-755 | A run on which an order in flight comes to rest: same fingerprint, same orders hidden, different time in force in the view. |
| OpenQuotes.BitForBitIff | crates/tikr-backtest/src/fill_sim.rs:666-755 | With the fingerprint unchanged and the same orders hidden the cached view is bit for bit the current one exactly if time in force and shape agree entry by entry; for distinct orders, equality needs both. |
| OpenQuotes.BitForBitForMakers | crates/tikr-backtest/src/fill_sim.rs:735-755 | If all orders in flight are post-only points and managers and their orders are left alone, an unchanged fingerprint means the very same view. |
| Reconciliation.ReconcileComplete | crates/tikr-backtest/src/fill_sim.rs:1409-1481 | Afterwards the symbol rests only ids of the venue, every venue order of the symbol rests or is in flight, the counts are the resting orders the venue did not list and the listed ids that were not known, and nothing but the resting orders changed. |
| Reconciliation.ReconciledOrders | crates/tikr-backtest/src/fill_sim.rs:1409-1481 | What rested and is of another symbol or listed still rests untouched; whatever else rests is a listed order of the symbol, with its reported side, price and size, that neither rested nor was in flight. |
| Reconciliation.ReconcileLocal | crates/tikr-backtest/src/fill_sim.rs:1409-1481 | Orders of other symbols are the same, in the same order. |
| Reconciliation.ReconcileIdempotent | crates/tikr-backtest/src/fill_sim.rs:1432-1481 | A second call with the same list changes nothing and returns zero and zero. |
| Reconciliation.ReconcileUnique | crates/tikr-backtest/src/fill_sim.rs:1432-1481 | Ids that were unique stay so if and only if no imported id rests under another symbol. |
| Counterexamples.ReconcileClashes | crates/tikr-backtest/src/fill_sim.rs:1432-1481 | An order comes to rest, the venue lists its id under another symbol, and both rest under it. |
| FillSimulator.FillSim.CommittedFor | crates/tikr-backtest/src/fill_sim.rs:434-458 | The cached commitment is what a fresh scan of the resting orders gives. |
| FillSimulator.FillSim.LiveQuotesFor | crates/tikr-backtest/src/fill_sim.rs:574-623 | The view of resting and in-flight orders that are not a manager's. |
| FillSimulator.FillSim.OpenQuotesSignature | crates/tikr-backtest/src/fill_sim.rs:675-733 | The fingerprint folds exactly the orders of the symbol, resting first. |
| FillSimulator.FillSim.OpenQuotes | crates/tikr-backtest/src/fill_sim.rs:741-755 | Whatever happened since it was built, the view returned is that of the state it was built from, which has the current fingerprint; it shows the current orders if the same are hidden, or if no manager's order is in a replace then or now and membership is unchanged; and is bit for bit the current view if all orders in flight are post-only points as well. |
| FillSimulator.FillSim.OnAction | crates/tikr-backtest/src/fill_sim.rs:758-803 | Schedules the operation of an action after its latency, at least one nanosecond for placements. |
| FillSimulator.FillSim.DecayQueueAhead | crates/tikr-backtest/src/fill_sim.rs:887-912 | Shrinks every queue by the factor in place; the commitment cache stays coherent without a rescan. |
| FillSimulator.FillSim.SilentCancelTick | crates/tikr-backtest/src/fill_sim.rs:914-940 | Drops an arbitrary set of orders and keeps the rest in order; the cache is marked dirty. |
| FillSimulator.FillSim.Gate | crates/tikr-backtest/src/fill_sim.rs:1040-1199 | The gates read the cache and decide as if they had rescanned. |
| FillSimulator.FillSim.SpotGate | crates/tikr-backtest/src/fill_sim.rs:1067-1110 | Reads the cached commitment and decides as the value-level gate, which `Admission.SpotExactly` spells out for both sides. |
| FillSimulator.FillSim.FuturesGate | crates/tikr-backtest/src/fill_sim.rs:1111-1199 | Buying power and the position cap are checked against position and commitments. |
| FillSimulator.FillSim.TakeNow | crates/tikr-backtest/src/fill_sim.rs:1206-1299 | An immediate order on the object does what the value-level take does. |
| FillSimulator.FillSim.PlaceOrReject | crates/tikr-backtest/src/fill_sim.rs:1026-1321 | A placement is refused with its reason, taken, or rests behind what the book shows at its price. |
| FillSimulator.FillSim.CancelQuote | crates/tikr-backtest/src/fill_sim.rs:1333-1353 | Removes the order and what is pending under its id. |
| FillSimulator.FillSim.ApplyReplace | crates/tikr-backtest/src/fill_sim.rs:953-1003 | Evicts, gates, and puts the order back if the gates refuse, with the cache coherent throughout. |
| FillSimulator.FillSim.ApplyDue | crates/tikr-backtest/src/fill_sim.rs:942-1024 | Applies exactly the due operations in queue order. |
| Dropping.DropClearsView | crates/tikr-backtest/src/fill_sim.rs:1371-1386 | After the drop the strategy sees no order of the symbol, every manager's order still rests, and other symbols' orders are the same in the same order. |
| Dropping.DroppedExactly | crates/tikr-backtest/src/fill_sim.rs:1371-1386 | The drop leaves exactly other symbols' and managers' orders, other symbols' operations, managers' placements and all cancels. |
| FillSimulator.FillSim.RetainQuotesFor | crates/tikr-backtest/src/fill_sim.rs:1409-1424 | Keeps the listed ids of the symbol; a cache that stays clean is still right, because nothing went. |
| FillSimulator.FillSim.ReconcileQuotesFor | crates/tikr-backtest/src/fill_sim.rs:1432-1481 | The loop on the object is the reconciliation of values. |
| FillSimulator.FillSim.UpdateBookState | crates/tikr-backtest/src/fill_sim.rs:1483-1563 | Replaces the book and reattributes queues in place; the cache stays coherent. |
| FillSimulator.FillSim.BiteQuote | crates/tikr-backtest/src/fill_sim.rs:1630-1740 | What a trade does to one order: queue first, then the order, with book, balances and cache. |
| FillSimulator.FillSim.MatchPublicTrade | crates/tikr-backtest/src/fill_sim.rs:1565-1754 | The matching loop with index-based removal does what the value-level match does; `Reach.TradeReaches` and `Reach.FirstInLineFills` say in prices what that is. |
| FillSimulator.RemoveDrained | crates/tikr-backtest/src/fill_sim.rs:1746-1751 | Removing by index from the highest down leaves the old vector filtered in order. |
| FillSimulator.FillSim.OnEvent | crates/tikr-backtest/src/fill_sim.rs:840-872 | One event on the object: decay, silent cancels, due operations, then trade or snapshot, as on values, cache coherent. |
| LoadOrder.LoadSorts | crates/tikr-backtest/src/replay.rs:273-287 | Loading sorts the events by time, symbol rank, rows before trades, and source position, and loses none. |
| LoadOrder.LoadedInOrder | crates/tikr-backtest/src/replay.rs:273-287 | Of two loaded events the first is no later; at one time its symbol ranks no lower; for one symbol at one time no trade comes before a book row; within one kind they are as read. |
| LoadOrder.SortedUnique | crates/tikr-backtest/src/replay.rs:129-137 | The key is total: there is one sorted order of the same events. |
| LoadOrder.LoadOrderIrrelevant | crates/tikr-backtest/src/replay.rs:273-287 | The same events read in any order load to the same list. |
| Replay.ParquetReplay.constructor | crates/tikr-backtest/src/replay.rs:757-777 | A replay starts before the first event with empty books. |
| Replay.ParquetReplay.Next | crates/tikr-backtest/src/replay.rs:993-1108 | One call on the object is one step of the replay of values, whose events `Tape` ties to the rows. |
| Replay.ParquetReplay.ConsumeGroup | crates/tikr-backtest/src/replay.rs:1024-1075 | Consumes the rows of one time and symbol and folds exactly them into the symbol's book. |
| Replay.ReplayFromStart | crates/tikr-backtest/src/replay.rs:993-1108 | On sorted data, heartbeats apart, the replay emits every trade once in order and one update per group of rows, folded from an empty book by that group's rows alone; `Tape` says what trade and update show. |
| Replay.ReplayRefines | crates/tikr-backtest/src/replay.rs:993-1108 | The same from any state between groups, though the replay's books have a past. |
| Tape.TradesAsRecorded | crates/tikr-backtest/src/replay.rs:1090-1106 | On any data, sorted or not, the trades emitted are the trade rows still to come, one for one and in order, each with its row's symbol, price, size and time, and a buy exactly if the row's taker side is 0. |
| Tape.RecordedTradesFill | crates/tikr-backtest/src/replay.rs:1090-1106 | Through the simulator, the recorded trade of a row with taker side 0 fills asks only and leaves every resting bid, and that of any other row the reverse. |
| Tape.GroupUpdateShows | crates/tikr-backtest/src/replay.rs:1045-1088 | The update of a group is of its symbol and time, and lists as bids exactly the ticks where the last row of the bid side wrote a size, at that size and at tick times tick size, and likewise the asks. |
| Tape.DrainOnBeat | crates/tikr-backtest/src/replay.rs:998-1018 | Every heartbeat comes exactly one interval after what was emitted before it; there is none before the first event and none at interval zero. |
| Replay.GroupIsRun | crates/tikr-backtest/src/replay.rs:1045-1075 | On sorted data the rows of a time and symbol are contiguous, so coalescing up to the next other row misses none. |
| Replay.LastRowDecides | crates/tikr-backtest/src/replay.rs:89-119 | After folding a group, each side shows exactly the ticks last written with a size other than zero, at that size. |
| Replay.GroupUpdateOrdered | crates/tikr-backtest/src/replay.rs:1077-1088 | Snapshots show bids strictly falling and asks strictly rising. |
| Replay.DrainPaced | crates/tikr-backtest/src/replay.rs:998-1018 | Emitted times never go back, a heartbeat comes strictly before what follows it, no replay ends with one, and with heartbeats enabled no gap exceeds the interval. |
| Replay.NextProgress | crates/tikr-backtest/src/replay.rs:993-1108 | Every call moves the cursor or shortens the time to the next event, so a replay ends. |
| Survey.Scan | crates/tikr-backtest/src/replay.rs:378-438 | The pass over the data finds the first and last mid, the moves between closed snapshots, the latest time and the highest sequence number. |
| Survey.BookMidIs | crates/tikr-backtest/src/replay.rs:378-438 | The mid of a book is halfway between its highest bid and lowest ask if both are there, the bid is positive and below the ask, and missing otherwise. |
| Survey.MovesCover | crates/tikr-backtest/src/replay.rs:396-406 | The moves counted between mids are never zero, add up to at least the distance from the first mid to the last, and to just that if the mids never turn back. |
| Survey.TicksNearest | crates/tikr-backtest/src/replay.rs:377-400 | Moves are counted in the nearest tick of each mid, halfway in the even one. |
| Retrace.MedianOfAllIff | crates/tikr-backtest/src/replay.rs:400-464 | The moves counted are all moves but the one into the last snapshot; the median that sets the step is that of all moves if and only if the last is zero or would not have moved the middle of the sorted moves. |
| Retrace.MedianLeavesLastMoveOut | crates/tikr-backtest/src/replay.rs:455-464 | Three snapshots on which the step is one tick while the median of all moves gives two. |
| Survey.ScanSeesSnapshots | crates/tikr-backtest/src/replay.rs:378-438 | On sorted data the mids the pass sees are exactly those of the snapshots the replay emits for the first symbol. |
| Retrace.WithRetraceTail | crates/tikr-backtest/src/replay.rs:358-520 | The pass and the walk produce the specified data and boundary, or the data unchanged. |
| Retrace.Walk | crates/tikr-backtest/src/replay.rs:475-510 | The walking loop ends and pushes exactly the rows of the specified walk. |
| Retrace.RetraceReturns | crates/tikr-backtest/src/replay.rs:358-520 | A tail is appended exactly if the first and last mid the replay would show differ in ticks; it has at most 20000 steps, comes after every real event, keeps the data sorted, and its last trade is exactly at the first mid. |
| Retrace.RetraceBounded | crates/tikr-backtest/src/replay.rs:446-482 | The walk moves strictly from end to origin, at most 20000 steps, and ends at the origin. |
| Retrace.WalkedAt | crates/tikr-backtest/src/replay.rs:475-510 | The walk in closed form: whole steps while they fit short of the origin, then the origin. |
| Retrace.StepIsLeast | crates/tikr-backtest/src/replay.rs:455-470 | The step is the least that is a tick, no less than the usual move, and covers the distance in 20000. |
| Retrace.RetraceSteps | crates/tikr-backtest/src/replay.rs:358-520 | Trade by trade the tail goes from the last mid towards the first by the step that follows the median of the moves counted, and ends at the first. |
| Retrace.TailRowAt | crates/tikr-backtest/src/replay.rs:475-510 | Each step is two quotes one tick either side and a trade one second later, with consecutive sequence numbers and source positions. |
| Retrace.TailSays | crates/tikr-backtest/src/replay.rs:475-510 | Each step is a bid and an ask of size 1 a tick either side of the price, numbered above all sequence numbers of the data, and a second later a trade of 10^9 at the price, a buy exactly if the walk goes up. |
| Retrace.ExtendedSorted | crates/tikr-backtest/src/replay.rs:446-520 | Every tail row is later than every real one and the extended data is sorted by the replay's key. |
| Retrace.MedianIsMiddle | crates/tikr-backtest/src/replay.rs:455-462 | The usual move is one of the moves, with at most half smaller and fewer than half larger. |
| Banking.InsertMoves | apps/tikr/src/state.rs:489-498 | Inserting keeps views and order in step, leaves the totals as they were if the new view holds what the replaced one held, and moves each profit total by exactly the difference otherwise. |
| Banking.StatusConserves | apps/tikr/src/state.rs:594-600 | A change of status moves no total and keeps views and order in step. |
| Banking.SharedBotState.Remove | apps/tikr/src/state.rs:505-526 | The method does to the object what `Boards.RemovedExactly` says of the board. |
| Banking.SharedBotState.BankRotated | apps/tikr/src/state.rs:533-569 | Banks a stopped bot's totals once. |
| Banking.SharedBotState.SessionState | apps/tikr/src/state.rs:374-408 | The loop over the views gives the session that is saved. |
| Banking.BoardRestarts | apps/tikr/src/state.rs:374-435 | Saving, restoring and inserting the roster's bots again, with what they held, shows the account totals shown before. |
| Banking.RestartShowsTheSame | apps/tikr/src/state.rs:374-435 | The same for any views without namesakes; and the roster names just the bots that come back, in order. |
| Banking.SharedBotState.Compute | apps/tikr/src/state.rs:925-994 | The accumulation loop computes the account aggregate, counters saturating. |
| Banking.ComputedIsShown | apps/tikr/src/state.rs:925-994 | The displayed totals are the retired totals plus what each view holds, whatever the counters do at their limit. |
| Banking.BankConserves | apps/tikr/src/state.rs:533-569 | Banking leaves every displayed total unchanged. |
| Banking.BankTwice | apps/tikr/src/state.rs:533-569 | Banking twice is banking once. |
| Banking.RemoveConserves | apps/tikr/src/state.rs:505-526 | Removing leaves every displayed total unchanged. |
| Boards.RemovedExactly | apps/tikr/src/state.rs:505-526 | After a removal the bot is in neither map nor tab order; every other view is the same and the others keep their order; the retired line grows by its report exactly if it had one not yet banked; a second removal changes nothing. |
| Boards.BankedExactly | apps/tikr/src/state.rs:533-569 | Banking marks the view and changes nothing else about it, any other view or the tab order; the retired line grows by its report exactly if it had one not yet banked. |
| Boards.InsertedExactly | apps/tikr/src/state.rs:489-498 | The new view is shown under its symbol, in the old one's tab or last; all else is the same. |
| Boards.StatusExactly | apps/tikr/src/state.rs:594-600 | A change of status changes the status of a listed bot and nothing else. |
| Boards.TabsInOrder | apps/tikr/src/state.rs:652-660 | The tabs show just the bots of the board, running ones first, each kind by symbol, lexicographically. |
| Boards.RosterSays | apps/tikr/src/state.rs:374-408 | The roster lists exactly the views that are not rotated, in tab order, each with its symbol, strategy and status tag. |
| Banking.RotationConserves | apps/tikr/src/state.rs:505-569 | So does any sequence of bankings and removals, in any order. |
| Banking.RetiredLineIsSaved | apps/tikr/src/state.rs:374-408 | The retired net and count displayed are those the session saves. |
| Banking.RestartConserves | apps/tikr/src/state.rs:374-435 | Saving and restoring loses nothing: the saved retired totals and the bots that come back add up to what was displayed. |
| Decimals.RoundNear | crates/tikr-backtest/src/pnl.rs:94-155 | Rounding to eight decimals moves a number by at most half a unit and lands on the grid. |
| Decimals.TieGoesToEven | crates/tikr-backtest/src/pnl.rs:94-155 | Halfway between two multiples of 10^-8 rounding goes to the even one. |
| Decimals.RoundMonotone | crates/tikr-backtest/src/pnl.rs:94-155 | Rounding to eight decimals, half to even, keeps order. |

## Left out

- The mirror of a live venue (`set_live_mirror`): its branch in the step is not modelled; the calls it relies on (`EnqueuePlaceWithId`, `DropQuotesFor`, `ReconcileQuotesFor`) are.
- `committed_notional_by_side`, `all_live_quotes_for`, `is_tracked` and the plain getters: read-only variants of what is modelled.
- The diagnostic counters of the simulator and what it prints when dropped.
- The random number generator and the floating-point formulas for decay, silent cancels and jitter: their results are arbitrary inputs.
- The 28-digit and 96-bit limits of the decimal type: products and quotients are exact until the explicit rounding.
- Overflow of 64-bit tick, time and sequence arithmetic in the retrace, and conversion of ticks that do not fit.
- Reading parquet files, threads, and the check for gaps in sequence numbers while loading.
- `book_spread_stats_bps` and `minute_close_mids`: statistics over the loaded data.
- Collisions of the open-quote fingerprint: it is taken to determine the sequence it folds.
- Runs.TwoBooksAgree: one symbol, because cash and holdings in the source are one pair for all symbols.
- Runs.AlwaysSolvent: one symbol, for the same reason.
- Fees.BackedIffRoom: exact arithmetic only; the reserve is about fees, and rounding is bounded in `Runs.AlwaysSolvent`.
- Backtest.WholeBacktest: starts from an empty venue with a seeded balance, as the engine does, and needs times short of the last 64-bit value, where scheduling saturates.
- The start balance, fee-token value and uptime that a session also carries: copied through, not part of the totals.
- Locks, snapshot files on disk, wall-clock time, price history, API snapshots and live channels of `SharedBotState`: its methods are single steps on views, order and totals.
- Strategies, the paper runner and every exchange client: the strategy is arbitrary.
- Sharing of snapshots by reference: books and snapshots are values in maps.

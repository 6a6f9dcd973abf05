# Verified model of the copy-trading engine

This project models the parts of the copy-trading engine on which capital depends, and proves what
they promise over every run:

* the **risk ledger**: five atomic scripts and a few direct writes over one set of shared counters,
  called by any number of interleaved services (`RiskLedger`, `LedgerBook`, `LedgerLimits`,
  `LedgerRace`, `LedgerEquity`), and the kill latch and state flags in front of it (`SystemControl`);
* the **live order protocol**: claiming an idempotency key, signing, recording, sending, confirming and
  settling the hold, with crashes, retries and a chain that answers late or never (`OrderProtocol` as a
  transition system, `LiveEntry` as the executor itself), and the bounded queue in front of it
  (`SignalQueue`);
* the **decision**: entry gates, sizing, and the reservation as the last step (`Gates`, `Decision`), its share of the
  book (`LiquidityShare`), what passes and what is asked for in raw terms (`GateMeaning`), and two decisions worked out
  in numbers (`DecisionCases`);
* the **life of a position**: exit rules, marks, the event log and its projection (`Exits`, `Positions`,
  `PositionLife`), when each rule sells and what a sale books (`ExitMeaning`), and the harvesting of profit
  (`Harvest`, `HarvestCase`);
* the **backtest**: a provider that cannot see the future (`History`, `ProviderMeaning`), simulated fills (`Fills`,
  `FillMeaning`), what a sale, a fill or a mark does to ledger, positions and result (`Replay`), every step of the
  engine as a function of its state (`Engine`), the timeline it builds from trades and price points (`Timeline`), the
  class that performs them (`Backtest`), what every step keeps (`EngineSound`) and means in units and dollars
  (`EngineMeaning`, `EngineNumbers`), the two-run statement that the future has no influence (`EngineBlind`), both for
  whole backtests (`Runs`), the drawdown meter (`Drawdown`), and the results booked for the traders themselves and for
  a follower who comes a lag later (`SourceTrips`);
* three **algorithms**: union-find clustering of wallets (`Graph`, `GraphMerge`), FIFO lot matching (`Lots`), and what
  a stable sort keeps and shows (`Sorting`).

The code that changes state step by step is written as classes and methods with loops, each proved against
a function on values; the theorems are about those functions and about sequences of them. The modules named
after a meaning say what such a function answers without naming how it is computed. A whole check of the
project is `dafny verify dfyconfig.toml`.

## Reading the model

* `Decimal` and USD amounts are exact reals, Lua floats are idealised as exact, raw token amounts and times
  (microseconds) are integers. Rounding is modelled where the code rounds: `Cents` is `quantize` to
  0.01, half to even, and `Trunc` is `int()`. So "at most the cap" is proved as "at most the cap plus 0.005".
* `LedgerBook.Book` pairs the ledger with the claims its callers hold (a held reservation or an open
  position). `Balanced` is the accounting statement: the reservation table is the set of held claims; pending and
  open counts are the numbers of held and open claims; deployed and every token and trader exposure are
  sums over the claims, less at most one dust unit (1e-6) per exit; cash plus claims plus harvested is the capital plus all
  (proceeds - cost released). With amounts in whole millionths the dust clamp loses nothing at all.
* `OrderProtocol` steps are the awaits of `LiveExecutor.execute` and of the settlement; an exception may strike before or
  after a write took effect. `LiveEntry` runs the code in its own order and returns the steps it made as ghosts.
* Wallets and tokens are strings, and numbers in `Graph`, where only their equality matters. A dictionary whose order
  is looked at is a map with the list of its keys (`mints`).
* Whatever the outside world answers (quotes, signer, chain, treasury, random draws, market data) is a parameter.

## Where the code falls short of what it says

Each of these has a concrete input and an exact condition.

* The copyable return "must never flatter a trader". It does, exactly when the lag's share of a loss exceeds the fixed
  cost: bought at 100 and sold two seconds later at 50, a trip is reported as -2.5 percent
  (`Lots.ReportFlattersExactlyWhen`, `Lots.QuickLossIsFlattered`).
* The liquidity gate fits the provisional size into the book, but the bought size is the uncapped base times all
  multipliers. It is within the liquidity share exactly under the condition of
  `LiquidityShare.FitsTheBookExactlyWhen`; under the default settings, the default sizing mode included, two
  confirmations buy 375 dollars of a book with room for 300 (`DecisionCases.BonusOverflowsTheBook`).
* A worse signal is never asked for at a larger size, but the ledger can turn that round, exactly when it is open and its
  headroom lies between the two sizes (`Decision.WorseReservesMoreExactlyWhen`); a price four percent up then
  reserves 187.50 where the better price reserves nothing (`DecisionCases.WorseReservesMore`).
* The harvest trigger leaves unrealized results out, the new baseline includes them. The baseline falls exactly when the
  open loss exceeds the profit left behind (`Harvest.BaselineFallsExactlyWhen`), and the same gains can then be
  harvested twice, on a ledger that a run under the default limits reaches, with 270 dollars lost on paper after a gain
  of 400 (`HarvestCase.UnrealizedLossHarvestsTwice`).
* No key is broadcast twice exactly when both the record of a signature and the drop of a failed order come less than
  the key's expiry after its claim (`OrderProtocol.OneBroadcastExactlyWhen`); one late record or one late drop is
  enough (`OrderProtocol.StallBroadcastsTwice`, `OrderProtocol.LateDropBroadcastsTwice`).
* No answer of a backtest is to use data later than its clock. Market states, quotes, and with them every decision and
  exit keep to that; the follower's result does not: a sale is booked when it happens, with prices from one lag later,
  exactly when the lag is positive (`SourceTrips.LooksAheadExactlyWhen`). The result changes with how a sale is reported,
  too: sold in two parts, the round trip on the lot the first part stops inside of is booked twice
  (`SourceTrips.SplitSellCountsTwice`); a lot of two units sold one by one brings double (`SourceTrips.SoldOneByOne`).
* The rounded shares of a cluster add up to one budget exactly when its size divides 10000; three wallets share 0.9999
  of it, seven share 1.0003 (`GraphMerge.SharesExactlyWhen`, `GraphMerge.ThirdsFallShort`).

## Model

| member | source | states |
|---|---|---|
| Ledger.RiskLedger.Bootstrap | src/asm/state/ledger.py:59-77 | a fresh ledger: equity, cash and high-water mark are the capital, everything else is zero |
| Ledger.RiskLedger.Reserve | src/asm/state/scripts.py:18-124 | the script's checks in its order give the first refusal; a refusal changes nothing, a grant books the hold in all five places |
| Ledger.RiskLedger.Release | src/asm/state/scripts.py:129-144 | a held reservation is undone in every counter and removed; anything else is left alone and reported as not found |
| Ledger.RiskLedger.Commit | src/asm/state/scripts.py:149-169 | a held reservation becomes a position at the amount actually filled, once; anything else is left alone |
| Ledger.RiskLedger.ReleasePosition | src/asm/state/scripts.py:174-199 | an exit frees its cost, pays its proceeds into cash, counts the result of the day, and sweeps dust from the three counters |
| Ledger.RiskLedger.Mark | src/asm/state/scripts.py:202-216 | answers cash plus deployed as they were plus the argument, loss or gain; the high-water mark ratchets |
| Ledger.RiskLedger.AddHarvest | src/asm/state/ledger.py:181-186 | moves the amount from cash to the harvested total |
| Ledger.RiskLedger.ResetDaily | src/asm/state/ledger.py:178-179 | zeroes the result of the day and nothing else |
| LedgerBook.ApplyBalanced | src/asm/state/scripts.py:112-199 | every script and write keeps the accounting statement, whatever the order and however often release and commit are repeated |
| LedgerBook.ExitSweeps | src/asm/state/scripts.py:187-198 | after an exit none of its counters holds less than a millionth of a dollar |
| LedgerBook.LedgerAccounting | src/asm/state/scripts.py:112-199 | in every reachable state pending, open count, deployed, each token and trader exposure, and cash agree with the claims |
| LedgerBook.ShownMoves | src/asm/state/scripts.py:174-199 | a counter follows the claimed total exactly, except that an exit may wipe a remainder below one dust unit |
| LedgerBook.ExactInMicroDollars | src/asm/state/scripts.py:187-197 | with amounts in whole millionths the dust clamp is exact: every counter equals the claims it counts, after any run |
| LedgerBook.GrantsAreSettledOrHeld | src/asm/state/scripts.py:129-169 | over any run, a reservation granted is settled exactly once or still held, and an id is granted at most once |
| LedgerBook.SettledAtMostOnce | src/asm/state/scripts.py:129-169 | however often release and commit are called, a reservation is settled at most once |
| LedgerLimits.GrantedExactlyWhen | src/asm/state/scripts.py:24-110 | a reservation is granted if and only if the system runs and every limit has room; no check shadows another |
| LedgerLimits.RefusedByTheFirst | src/asm/state/scripts.py:24-110 | of the script's fifteen checks, each stated in dollars and counts, the first that fails gives the reason |
| LedgerEquity.EquityMeans | src/asm/state/scripts.py:202-216 | after any run that ends in a mark, equity is the capital plus what the exits gained, less what was harvested, plus the result on paper, within a millionth an exit |
| LedgerEquity.TodayMeans | src/asm/state/scripts.py:174-186 | after any run the day's counter is the sum of the exits' results since the last reset |
| LedgerEquity.DailyLossStops | src/asm/state/scripts.py:64-69 | once the exits since the reset lost the allowed share of equity nothing is granted |
| LedgerEquity.PaperLossStops | src/asm/state/scripts.py:71-77 | a mark whose result on paper takes equity the allowed fall below the high-water mark stops every entry |
| LedgerEquity.SnapshotMeans | src/asm/state/ledger.py:156-168 | the portfolio sizes are taken from includes the result on paper: capital plus gains less harvests plus that, within dust |
| LedgerLimits.CapsHoldInEveryState | src/asm/state/scripts.py:90-96 | in every reachable state open plus held entries are within the position cap and held entries within the pending cap |
| LedgerLimits.GrantEntersUnderCeilings | src/asm/state/scripts.py:79-110 | right after a grant, deployed, token and trader exposure are under their ceilings against stored equity |
| LedgerLimits.CeilingsHoldAfterGrant | src/asm/state/scripts.py:79-118 | and they stay under until a mark lowers equity or a fill exceeds its hold, whatever else happens |
| LedgerLimits.CashNeverNegative | src/asm/state/scripts.py:85-88 | without harvests and with no fill above its hold, cash stays non-negative over any run |
| LedgerRace.RoomIsLargest | src/asm/state/scripts.py:98-110 | the room of a limit is the largest k with exposure plus k sizes within the ceiling |
| LedgerRace.RaceCount | src/asm/state/scripts.py:98-123 | n equal attempts racing for one token, one trader or the deployed ceiling, in any order: exactly min(n, room) are granted, when the limits the attempts touch besides that one leave room for as many |
| LedgerRace.TwoBuysOneCap | src/asm/state/scripts.py:1-8 | two signals buying one untouched token at once, each at the full cap: one of them gets it |
| SystemControl.GateAgreesWithGet | src/asm/state/ledger.py:196-209 | the script's control check passes exactly when get() reads RUNNING; absent, stopped and unknown states never grant |
| SystemControl.UnknownIsPaused | src/asm/state/ledger.py:196-209 | a state that is none of the known ones reads as a hard pause, an absent or empty one as stopped |
| SystemControl.Controls.Set | src/asm/state/ledger.py:230-232 | stores the state; get() reads it back unless the latch is set |
| SystemControl.Controls.Start | src/asm/state/ledger.py:211-216 | refuses while the latch is set, otherwise the system runs |
| SystemControl.Controls.Stop | src/asm/state/ledger.py:218-221 | the state becomes stopped, the latch is not touched |
| SystemControl.Controls.Kill | src/asm/state/ledger.py:234-236 | sets the latch, then the state |
| SystemControl.Controls.ClearKill | src/asm/state/ledger.py:223-228 | clears the latch into a hard pause: the gate still refuses |
| SystemControl.KillLatchHolds | src/asm/state/ledger.py:196-236 | from kill's first write until a clear, under any interleaving of the separate reads and writes, nothing is granted and every get() begun reads KILLED |
| SystemControl.ClearedIsNotResumed | src/asm/state/ledger.py:223-232 | after a clear nothing is granted before RUNNING is set again |
| OrderProtocol.Dedupe.ClaimOrder | src/asm/state/dedupe.py:24-26 | succeeds exactly when no live entry holds the key, and then holds it with an expiry |
| OrderProtocol.Dedupe.FinishOrder | src/asm/state/dedupe.py:28-29 | the signature overwrites the key, for good |
| OrderProtocol.Dedupe.AbandonOrder | src/asm/state/dedupe.py:34-36 | deletes the key |
| OrderProtocol.ClaimLastsADay | src/asm/state/dedupe.py:13-26 | a claim that nothing follows up holds its key for exactly a day, a signature for good |
| OrderProtocol.OneBroadcastPerKey | src/asm/execution/live.py:179-229 | over every interleaving of attempts, crashes and retries in which a claim is recorded or dropped before it expires, no two broadcasts share a key |
| OrderProtocol.OneBroadcastExactlyWhen | src/asm/state/dedupe.py:13-36 | with records within r seconds of their claim and drops within d, no run broadcasts a key twice if and only if both bounds are below the expiry |
| OrderProtocol.StallBroadcastsTwice | src/asm/execution/live.py:207-216 | one record at the expiry and the key is broadcast twice: a concrete run |
| OrderProtocol.LateDropBroadcastsTwice | src/asm/execution/live.py:189-204 | every record on time and one drop at the expiry, and the key is broadcast twice: a concrete run |
| OrderProtocol.ReleasedNeverLands | src/asm/services/decision_service.py:346-369 | a hold is released only if its transaction was never broadcast or came back with an on-chain error, booked only if it landed, and kept in every ambiguous or crashed case |
| OrderProtocol.ReleasedForGood | src/asm/services/decision_service.py:366-369 | no continuation of the run changes a released attempt or lands its transaction |
| LiveEntry.LiveExecutor.Execute | src/asm/execution/live.py:176-256 | the executor's own sequence of awaits is a run of the transition system; each status if and only if the answers call for it, given whether the key was free; it was broadcast exactly when prepared, signed and recorded; and what becomes of the key in every case |
| LiveEntry.LiveExecutor.Broadcast | src/asm/execution/live.py:206-229 | from the signed transaction on no path deletes the key; the status, the broadcast and the key for every answer |
| LiveEntry.LiveExecutor.Await | src/asm/execution/live.py:231-256 | confirmed exactly when the chain reports success and the fill is reconciled, failed exactly on a reported error, otherwise submitted |
| LiveEntry.ExecuteEntry | src/asm/services/decision_service.py:335-380 | the hold is booked at the filled amount, given back or kept, each exactly when the answers call for it, and the ledger with it; a hold survives exactly when the outcome is unknown |
| SignalQueue.DecisionService.OnSignature | src/asm/services/decision_service.py:101-113 | a full queue drops its oldest entry, counts it, and takes the new one |
| SignalQueue.NewestAreKept | src/asm/services/decision_service.py:101-113 | over any arrivals and takes the queue holds the newest arrivals in order, and everything older was served or counted as dropped |
| SignalQueue.DropsExactlyWhenFull | src/asm/services/decision_service.py:101-113 | an arrival costs another its place exactly when the queue is full |
| SignalQueue.NothingDroppedExactlyWhen | src/asm/services/decision_service.py:101-113 | over any run nothing was dropped if and only if arrivals less those served never exceeded the capacity |
| Graph.Forest.Find | src/asm/engine/graph.py:133-138 | terminates, halves the path, returns the wallet's root and changes no root |
| Graph.Forest.Union | src/asm/engine/graph.py:140-143 | the two trees and only those become one |
| Graph.FindClusters | src/asm/engine/graph.py:128-152 | exactly the connected components with more than one wallet of the relationships at or above the threshold, each once, for every list |
| GraphMerge.Merge | src/asm/engine/graph.py:114-125 | one relationship per unordered pair, the first of the strongest, and no pair lost |
| GraphMerge.MergeKeepsClusters | src/asm/engine/graph.py:114-152 | clustering the merged list gives the same clusters as clustering the original, at every threshold |
| GraphMerge.ClusterSharesOneBudget | src/asm/engine/graph.py:155-163 | the rounded shares of a cluster add up to one budget within n/20000 |
| GraphMerge.SharesExactlyWhen | src/asm/engine/graph.py:155-163 | they add up to exactly one budget if and only if the size divides 10000 |
| GraphMerge.ThirdsFallShort | src/asm/engine/graph.py:155-163 | three wallets share 0.9999 of a budget, seven 1.0003 |
| Lots.SellFifo | src/asm/services/tasks/intelligence.py:127-152 | the loop terminates and leaves and takes what the recursive specification says |
| Lots.SellTakesOverlap | src/asm/services/tasks/intelligence.py:126-152 | what a sell takes from a buy is the overlap of their cumulative intervals, each sell cut to what is available |
| Lots.PairRoundTrips | src/asm/services/tasks/intelligence.py:113-153 | every reported round trip is an earlier buy and a later sell of one token with their own returns, and the quantity reported between any two is that overlap |
| Lots.EveryUnitIsReportedOrLeft | src/asm/services/tasks/intelligence.py:118-152 | conservation, buy by buy and sell by sell: what the report takes from a buy and what the queue still holds of it are what was bought, and each sell is reported at its amount or at all there was to sell |
| Lots.ReportedReturnsMean | src/asm/services/tasks/intelligence.py:131-147 | of every reported trip: the source's return in percent of the price bought at, and the follower's as that of the holding time beyond three seconds less 2.5 percent |
| Lots.ReportFlattersExactlyWhen | src/asm/services/tasks/intelligence.py:131-147 | of the reported round trips exactly those are flattered whose loss, times the lag's share of the holding time, exceeds the cost; no reported trip loses everything |
| Lots.QuickLossIsFlattered | src/asm/services/tasks/intelligence.py:118-153 | bought at 100 and sold two seconds later at 50: whatever reports its round trips correctly shows -2.5 percent |
| SourceTrips.SourceBook.Track | src/asm/backtest/engine.py:448-517 | one queue per wallet and token; a sell is matched first in, first out, and accrues the source's result and returns and the follower's; no other queue is touched |
| SourceTrips.ResultIsSalesLessCost | src/asm/backtest/engine.py:470-480 | over any run the source's result is, sell by sell, what the lots taken sold for less what they had cost |
| SourceTrips.QueueCarriesTheRest | src/asm/backtest/engine.py:464-490 | over any run each queue carries at cost what was bought into it less what was taken |
| SourceTrips.FollowerMeans | src/asm/backtest/engine.py:492-517 | a follower enters at the first price plus its impact, leaves at the second less its own, and pays two fees; nothing when a price is missing or not positive |
| SourceTrips.SplitSellCountsTwice | src/asm/backtest/engine.py:470-517 | a sell reported in two parts at one price leaves the same lots and the same source result, and one round trip more, with the follower's result on it, exactly for the lot the first part stops inside of |
| SourceTrips.SoldOneByOne | src/asm/backtest/engine.py:470-517 | a lot of two units sold one by one brings the follower twice what it brings sold at once |
| SourceTrips.ScaleFree | src/asm/backtest/engine.py:170-176 | over any run of trades, had all amounts been k times as large, every percentage, the number of round trips and the follower's result would be the same and the source's result k times as large |
| SourceTrips.PercentagesAddUp | src/asm/backtest/engine.py:514-517 | over any run the follower's dollars are the notional times the sum of the percentages reported |
| SourceTrips.FollowerPaysCosts | src/asm/backtest/engine.py:492-517 | with impact and fees that are not negative, the follower makes no more than the two prices differ |
| SourceTrips.SeesTheLag | src/asm/backtest/engine.py:492-517 | what is booked for trades up to t depends on prices up to the lag after t and on nothing later |
| SourceTrips.LooksAheadExactlyWhen | src/asm/backtest/engine.py:492-517 | what is booked by t depends on prices up to t alone, for all histories and trades, if and only if the lag is not positive |
| Sorting.SortSorts | src/asm/backtest/provider.py:41-43 | loading a history orders its points and loses none |
| Sorting.SortStable | src/asm/backtest/provider.py:41-43 | points of one time keep their order |
| History.AtIsLastObservation | src/asm/backtest/provider.py:45-50 | a lookup splits the points at the clock and returns the last one at or before it, or none |
| History.HistoricalDataProvider.SetClock | src/asm/backtest/provider.py:71-72 | answers are given as of the clock set |
| History.HistoricalDataProvider.GetMarketState | src/asm/backtest/provider.py:74-97 | the state computed from the last observation, stale when that is old or missing; misses are counted |
| History.HistoricalDataProvider.GetQuote | src/asm/backtest/provider.py:108-140 | the route synthesised from that state, none when it is stale or comes to nothing |
| ProviderMeaning.StateMeans | src/asm/backtest/provider.py:45-97 | told from the observations as given: a token's state shows the latest at or before the clock, its own price and liquidity, its time and age, and is stale exactly when that is older than the limit |
| ProviderMeaning.UnseenMeans | src/asm/backtest/provider.py:74-86 | without an observation the state is stale and has no price |
| ProviderMeaning.BuyRouteMeans | src/asm/backtest/provider.py:114-140 | a buy is quoted every whole unit its value pays for at the impact-worsened price, and no route exactly when stale, unpriced or less than one unit |
| ProviderMeaning.SellRouteMeans | src/asm/backtest/provider.py:114-140 | a sale is quoted every whole lamport its units bring at the impact-worsened price, and no route exactly when stale, unpriced or less than one |
| ProviderMeaning.BuysNotCheaper | src/asm/backtest/provider.py:119-127 | with an impact that is not negative nothing is bought below its price |
| ProviderMeaning.SalesNotDearer | src/asm/backtest/provider.py:119-130 | and nothing is sold above it |
| History.NoLookahead | src/asm/backtest/provider.py:74-140 | two providers whose unsorted histories agree up to t, with any futures, give equal market states and quotes at every clock up to t |
| Fills.BacktestExecutor.Execute | src/asm/backtest/executor.py:37-87 | fails without a route or when the draw is below the failure rate, else fills; each order is counted once |
| Fills.BuysWorkAgainstUs | src/asm/backtest/executor.py:61-73 | a buy is never below the mark, never yields more tokens than its size pays for, and is worth exactly the size reserved |
| Fills.SalesWorkAgainstUs | src/asm/backtest/executor.py:66-78 | a sale is never above the mark, and its value is units times price |
| FillMeaning.FailsExactlyWhen | src/asm/backtest/executor.py:42-58 | an order fails exactly without a route, or when the draw is below both one half and the base rate plus half the impact |
| FillMeaning.BuyPriceMeans | src/asm/backtest/executor.py:64-70 | a buy fills at the mark plus the cost in percent |
| FillMeaning.SalePriceMeans | src/asm/backtest/executor.py:64-70 | a sale fills at the mark less it, and never below zero |
| FillMeaning.CostMeans | src/asm/backtest/executor.py:60-69 | the cost is the impact and the drift of the milliseconds waited |
| FillMeaning.BuyFillMeans | src/asm/backtest/executor.py:72-75 | a buy is worth its size and yields every whole unit that pays for |
| FillMeaning.SaleFillMeans | src/asm/backtest/executor.py:76-80 | a sale is worth its units at its price and yields every whole lamport of that |
| FillMeaning.FeeMeans | src/asm/backtest/executor.py:94-96 | a fee is its lamports, a billion to one SOL |
| Exits.FirstRung | src/asm/engine/exits.py:97-104 | the lowest rung not yet hit whose threshold is reached, if there is one |
| Exits.ToSell | src/asm/services/position_service.py:181-186 | nothing below one unit, everything from 0.999 up, otherwise the product rounded down |
| Exits.CostIsShare | src/asm/engine/exits.py:139-147 | the cost released is the sold share of the basis, within it, and all of it when everything is sold |
| ExitMeaning.ExitsExactlyWhen | src/asm/engine/exits.py:36-120 | each exit, with its share and rung, if and only if its own condition holds and none before it, all in prices, times and standing; and none exactly when no rule applies |
| ExitMeaning.SaleBooksTheFill | src/asm/engine/exits.py:139-147 | a sale brings its units at the price filled, the market's only when that is zero, and the result is that less the sold share of the cost |
| ExitMeaning.TickBooksTheFill | src/asm/services/position_service.py:179-259 | a tick that sells appends one event for exactly the units that left, worth their number times the price filled; any other appends nothing |
| ExitMeaning.ProtectionCloses | src/asm/services/position_service.py:95-259 | a stop loss, thin liquidity, a lost trader or a trailing stop closes the whole position in the tick it applies in, as long as the order fills |
| ExitMeaning.TickSellsExactlyWhen | src/asm/services/position_service.py:95-200 | a tick sells if and only if it can, a rule applies, and its share is at least a unit |
| ExitMeaning.HeldOnlyUnprotected | src/asm/engine/exits.py:59-95 | over any life in which prices are known, exits allowed and orders filled, what is still open after a tick is above its stop and its trader is not lost |
| Positions.Position.UpdateMarks | src/asm/engine/exits.py:123-136 | peak, price and trailing latch are updated, and the flag says exactly whether anything changed |
| Positions.PositionStore.OpenPosition | src/asm/db/repo.py:248-269 | the opening row and its event number zero |
| Positions.PositionStore.ReducePosition | src/asm/db/repo.py:272-319 | appends one event with the next number and updates the row beside it |
| Positions.PositionService.ExecuteExit | src/asm/services/position_service.py:179-259 | an exit that sells books the same sale in the row, the log, the ledger and the object; one that does not changes nothing |
| Positions.PositionService.Evaluate | src/asm/services/position_service.py:95-128 | a whole tick: mark, persist only changes, evaluate, sell |
| PositionLife.ReplayIsProjection | src/asm/db/repo.py:248-319 | over any life event numbers are 0..n, the row's units, result and cost are what the log adds up to, and once closed the total result is proceeds less opening cost |
| PositionLife.SaleFacts | src/asm/services/position_service.py:181-213 | every successful exit takes at least one unit and releases its share of the cost; only a take-profit names a rung, one not hit before |
| PositionLife.MarksSummariseThePath | src/asm/engine/exits.py:123-136 | over any price path the peak is the maximum of the entry mark and every price seen, and the trailing stop is armed exactly when that peak earned it, for good |
| PositionLife.RungsFillOnce | src/asm/services/position_service.py:244-250 | over any life each rung fills at most once, so there are at most as many take-profit sales as rungs |
| PositionLife.LadderRemainder | src/asm/services/position_service.py:181-186 | after k ladder fills and nothing else, the remainder is the opening amount times the kept shares, and less than k units above it |
| PositionLife.ExitKeepsClaim | src/asm/services/position_service.py:211-243 | every exit is a legal ledger operation on the position's own claim, and afterwards claim and row agree again |
| Harvest.Harvester.MaybeHarvest | src/asm/engine/harvest.py:88-155 | a harvest moves the amount and raises the baseline; a refused or failed transfer leaves the ledger and the baseline's value alone |
| Harvest.HarvestWithinLimits | src/asm/engine/harvest.py:64-85 | each amount is within half a cent of its share of the gain, of free cash and of the capital floor |
| Harvest.HarvestsExactlyWhen | src/asm/engine/harvest.py:64-85 | something is harvested if and only if there is a baseline, equity gained the threshold on it, and share, floor and cash leave something |
| Harvest.HarvestIsLargest | src/asm/engine/harvest.py:64-85 | what is harvested is as much as the share of the gain, the capital floor or free cash allows, whichever is least, in cents |
| Harvest.BaselineHolds | src/asm/engine/harvest.py:93-141 | with no unrealized loss the baseline falls by the rounding at most |
| Harvest.BaselineFallsExactlyWhen | src/asm/engine/harvest.py:93-141 | the baseline falls exactly when the unrealized loss exceeds the profit left behind |
| Harvest.NothingHarvestedTwice | src/asm/engine/harvest.py:88-141 | over any run of harvests with no unrealized loss, the harvested total is at most the take share of everything gained since the start, and the baseline ends no lower than it began, up to half a cent a harvest |
| HarvestCase.UnrealizedLossHarvestsTwice | src/asm/engine/harvest.py:93-141 | the proviso is needed: on a ledger that a run reaches under the default limits, with an open loss, two attempts take 268 of a gain of 400 whose share is 160 |
| Gates.PriceGatesMonotone | src/asm/engine/gates.py:46-147 | a price that has run further, or a larger impact, is never passed with a larger multiplier |
| Gates.LatencyMonotone | src/asm/engine/gates.py:74-91 | an older signal is never passed with a larger multiplier |
| Gates.LiquidityMonotone | src/asm/engine/gates.py:95-118 | thinner liquidity is never passed with a larger multiplier |
| Gates.ShareIsRoom | src/asm/engine/gates.py:105-108 | the gate's percentage test compares the intended size with the room in the book |
| Gates.GatesMonotone | src/asm/engine/gates.py:204-227 | in worse circumstances no gate of the sweep is kinder |
| Gates.SweepMonotone | src/asm/engine/gates.py:216-235 | what passes in worse circumstances passed before, with at least the combined multiplier |
| GateMeaning.SweepMeans | src/asm/engine/gates.py:38-235 | the sweep passes if and only if the signal is acceptable in raw terms: trust, price against the source's, milliseconds, liquidity, edge left, capitalisation, token age and safety; and its multiplier is the product of the shares |
| GateMeaning.AsksExactlyWhen | src/asm/engine/decision.py:104-163 | a size is asked for if and only if the signal is ready and acceptable at its provisional size and something is left; then it is the base times the shares, within cap and cash, in cents |
| GateMeaning.BaseMeans | src/asm/engine/sizing.py:33-56 | the base by mode: five minimums, a percentage of equity, or that in proportion to the trader's usual trade |
| GateMeaning.ConfidenceMeans | src/asm/engine/sizing.py:58-64 | or that percentage weighted by the three scores, a fifth at least each |
| GateMeaning.KellyMeans | src/asm/engine/sizing.py:75-92 | or a quarter of Kelly's fraction, nothing when the bet is not worth it and the cap at most |
| Decision.SizeWithinCaps | src/asm/engine/sizing.py:92-111 | any size asked for is within the position cap and free cash plus 0.005, and not below the minimum less 0.005 |
| Decision.FinalSizeMonotone | src/asm/engine/sizing.py:92-111 | a smaller multiplier never gives a larger final size, through caps, minimum and rounding |
| Decision.WorseNeverLarger | src/asm/engine/decision.py:138-163 | end to end, the same signal at a more adverse price, older, with larger impact, thinner liquidity or a younger token is never asked for at a larger size |
| Decision.DecisionEngine.EvaluateEntry | src/asm/engine/decision.py:72-196 | an order exists exactly when the decision asks for a size and the ledger grants it; every rejection leaves the ledger as it was |
| Decision.SmallerIsGranted | src/asm/state/scripts.py:44-110 | where a size is granted, so is any smaller one not below the minimum |
| Decision.WorseReservesMoreExactlyWhen | src/asm/engine/decision.py:160-175 | a worse signal reserves more exactly when the ledger is open and its headroom (the least of cash and the three ceilings' room) lies between the worse size and the better one |
| Decision.GrantedWithinHeadroom | src/asm/state/scripts.py:24-110 | a size is granted if and only if the ledger is open and the size is between the minimum and the headroom |
| DecisionCases.WorseReservesMore | src/asm/engine/decision.py:138-175 | two signals that the decision sizes at 375 and, four percent later, at 187.50, on one ledger: the first reserves nothing, the second its size |
| LiquidityShare.FitsTheBookExactlyWhen | src/asm/engine/decision.py:138-163 | the size a decision asks for, in cents, is within the liquidity share if and only if the base times the other multipliers is within the stretch of the room (its reach in cents, times provisional over room where the gate shrinks), or the caps are within its reach |
| LiquidityShare.CentsWithin | src/asm/engine/sizing.py:108-111 | an amount rounds into a room exactly up to its whole cents and a half, the tie going in when they are even |
| DecisionCases.BonusOverflowsTheBook | src/asm/engine/gates.py:192-200 | under the default settings and sizing mode a confirmed signal is sized at 375 against a room of 300 |
| Replay.ReserveAgrees | src/asm/backtest/engine.py:410-423 | an approved entry leaves the table in agreement with one hold waiting |
| Replay.FillAgrees | src/asm/backtest/engine.py:427-446 | a fill turns that hold into a position, a failed fill gives it back, and ledger, table and result agree again |
| Replay.CloseIsLegal | src/asm/backtest/engine.py:587-596 | the cost a close releases is within the position's own claim, all of it when it closes |
| Replay.CloseAgrees | src/asm/backtest/engine.py:587-617 | a close keeps ledger, table and result in agreement |
| Replay.MarkAgrees | src/asm/backtest/engine.py:628-645 | so does a mark, and the meter's peak is the ledger's high-water mark |
| Replay.AgreementMeans | src/asm/backtest/engine.py:587-617 | agreement in numbers: nothing pending, the open count is the table's size, exposures are the costs carried, cash is not negative, and cash plus those costs is the capital plus the reported result plus one fee per exit |
| Replay.EquityFloor | src/asm/backtest/engine.py:628-639 | a marked equity is never below minus the dust that exits may have swept |
| Backtest.BacktestEngine.constructor | src/asm/backtest/engine.py:278-309 | a new engine is in the start state, on the loaded histories |
| Timeline.BuildTimeline | src/asm/backtest/engine.py:374-391 | the trades and every price point in their window, sorted by time with prices first |
| Timeline.TimelineIs | src/asm/backtest/engine.py:374-391 | the timeline is in order of time, prices before trades; at each moment it holds exactly the trades given for it, in their order, and, in the window, every price observed then |
| Timeline.WindowMeans | src/asm/backtest/engine.py:383-384 | the window opens at the earliest trade and ends the longest holding time after the latest |
| Timeline.TimelinesAgree | src/asm/backtest/engine.py:374-391 | histories and trades that agree up to a moment in both windows give timelines that are equal up to it |
| Backtest.BacktestEngine.Advance | src/asm/backtest/engine.py:368-372 | the clock moves to the time asked for unless it is later already, and the provider follows it |
| Backtest.BacktestEngine.LookUp | src/asm/engine/decision.py:82-134 | market, token risk and the quote at the provisional size all come from the provider at the clock, as far as the decision gets |
| Backtest.BacktestEngine.DecideBuy | src/asm/backtest/engine.py:405-446 | a buy the decision or the ledger rejects is only counted; an approved one is reserved, then filled at exactly the size reserved or given back |
| Backtest.BacktestEngine.OnSourceTrade | src/asm/backtest/engine.py:393-446 | a followed trader's buy moves the clock by the detection latency and is decided there; a sale is mirrored at once |
| Backtest.BacktestEngine.MirrorExit | src/asm/backtest/engine.py:519-526 | every position copied from that trader in that token is attempted in order of entry, whole or by half |
| Backtest.BacktestEngine.TickExit | src/asm/backtest/engine.py:528-541 | marks a position at a fresh price and attempts exactly the exit the rules ask for |
| Backtest.BacktestEngine.TickExits | src/asm/backtest/engine.py:528-541 | every position gets that in order of entry |
| Backtest.BacktestEngine.Close | src/asm/backtest/engine.py:548-626 | one attempt at the clock's price, with its route and the next random draw: ledger, position and result change together or not at all |
| Backtest.BacktestEngine.Reprice | src/asm/backtest/engine.py:628-638 | every position with a price is repriced, and the sum is what they are worth above cost |
| Backtest.BacktestEngine.Mark | src/asm/backtest/engine.py:628-645 | the ledger is marked with that sum and the meter reads the resulting equity |
| Backtest.BacktestEngine.PlayStep | src/asm/backtest/engine.py:339-347 | the clock, the trade, the exits and the mark, in that order |
| Backtest.BacktestEngine.Run | src/asm/backtest/engine.py:324-353 | sorts the trades, builds the timeline, replays it, and liquidates at its end; nothing happens without trades |
| EngineMeaning.CloseMeans | src/asm/backtest/engine.py:548-626 | an attempt to close books a sale exactly when its order fills: units, price, cash, the closed trade, fee and what remains of the position; and changes nothing otherwise |
| EngineMeaning.BooksTheFillsValue | src/asm/backtest/engine.py:587-591 | what is booked is the value of the executor's fill, if and only if that did not fill at a price of zero |
| EngineMeaning.MirrorMeans | src/asm/backtest/engine.py:519-526 | a source's sale takes all of a position that copies it, a part sale half its units, when the order fills; others stay as they are |
| EngineMeaning.TickMeans | src/asm/backtest/engine.py:528-541 | at a fresh price a position is marked; it sells nothing when no rule applies and goes whole when a protective one does and the order fills |
| EngineNumbers.EquityMeans | src/asm/backtest/engine.py:628-645 | after every step of every timeline the marked equity is the capital, the result, the fees and the sum of units times price less cost, within a millionth a closed trade |
| EngineNumbers.TallyMeans | src/asm/backtest/engine.py:405-446 | after every step the result is the sum over the trades, and the signals counted are the followed buys, each approved or rejected |
| EngineNumbers.ClosesBookFills | src/asm/backtest/engine.py:548-617 | a close at any moment of any run pays the value of the executor's fill into cash, if and only if that did not fill at zero |
| EngineNumbers.BuyMeans | src/asm/backtest/engine.py:405-446 | a buy enters a position if and only if it is approved and filled with some units: those units, at the fill's price, with a fee and its cost out of cash |
| EngineNumbers.BuysKeepTheRules | src/asm/backtest/engine.py:393-423 | what is entered met every entry rule on what the histories show at the clock |
| EngineNumbers.BuysAreQuoted | src/asm/engine/decision.py:104-133 | and was quoted at the size before the gates, to the nearest lamport, with an impact within the limit |
| EngineNumbers.StepProtects | src/asm/backtest/engine.py:339-347 | when orders fill, no position is left after a step to which a stop, a trailing stop or a lost trader applies |
| EngineNumbers.SaleClearsCopies | src/asm/backtest/engine.py:393-402 | when orders fill, a source's sale closes exactly the positions that copy it in that token |
| EngineNumbers.PartSaleHalvesCopies | src/asm/backtest/engine.py:519-526 | when orders fill, a source's part sale halves exactly those, rounding what is left up |
| EngineNumbers.FinishEmpties | src/asm/backtest/engine.py:349-353 | a run whose last orders fill ends with nothing open |
| EngineSound.StepSound | src/asm/backtest/engine.py:339-347 | every step keeps ledger, positions and result in agreement, time in order and the meter on the curve, which grows by the equity marked |
| EngineSound.ReportsAgree | src/asm/backtest/engine.py:587-645 | after every step of every timeline the reported numbers agree with ledger and positions, and the reported drawdown is the worst fall of the marked equities |
| EngineSound.MeterReports | src/asm/backtest/engine.py:639-645 | the reported drawdown is the worst fall between any two marked equities in order, floored at zero, plus at most a millionth per closed trade as a share of the capital; exactly the worst fall when none is below zero |
| EngineSound.TimeRunsForward | src/asm/backtest/engine.py:337-372 | the clock passes every step of the timeline, and every closed trade closed after it opened, in order, by then |
| EngineSound.RunReports | src/asm/backtest/engine.py:324-366 | the same after the liquidation that ends a run |
| EngineSound.WithoutKeepsOrder | src/asm/backtest/engine.py:519-521 | closing a position leaves the others in the order they were entered |
| EngineSound.MirrorsTouchOnlyTheirs | src/asm/backtest/engine.py:519-526 | a mirrored sale touches only positions copied from that trader in that token |
| EngineSound.TicksMark | src/asm/backtest/engine.py:528-541 | after the exits of a step every open position with a fresh price is marked at it, and none is new |
| EngineSound.BuyEnters | src/asm/backtest/engine.py:405-446 | a buy changes no other position, and what it enters is its own, opened when detected, at a cost of exactly the size granted |
| EngineBlind.NoLookaheadRun | src/asm/backtest/engine.py:324-353 | two runs of one timeline over histories that agree up to t are in the same state after every step that leaves the clock at or before t |
| Runs.BacktestReports | src/asm/backtest/engine.py:324-366 | a whole backtest over any trades with ids of their own reports numbers that agree with ledger and positions, trades in order, and the worst fall of its equities |
| Runs.NoLookaheadBacktest | src/asm/backtest/engine.py:324-391 | neither later prices nor later trades matter: two backtests whose histories and trades agree up to t, each on the timeline it builds itself, are in the same state after n steps whenever those leave the clock at or before t |
| Drawdown.OnlineIsOffline | src/asm/backtest/engine.py:639-645 | for equity that never goes negative the running meter is the worst fall between any two points in order, the starting capital included |
| Drawdown.PeakIsHighest | src/asm/backtest/engine.py:639-641 | the meter's peak is the highest point so far, whatever the curve |
| Drawdown.MeterWithinSlack | src/asm/backtest/engine.py:639-645 | when equity dips below zero by no more than some slack, the meter gives the worst fall of the floored curve and at most the slack's share on top |
| Drawdown.HighWaterMark | src/asm/state/scripts.py:202-215 | over any ledger run the high-water mark is the maximum of where it started and every equity marked |

## Left out

- LedgerEquity.PaperLossStops: against the high-water mark as stored, whose own meaning is Drawdown.HighWaterMark.
- EngineNumbers.StepProtects: for clocks at which every sell order fills; EngineMeaning.TickMeans says what one tick does otherwise.
- EngineNumbers.FinishEmpties: for runs whose positions all have a price at the end and whose orders fill then.
- EngineNumbers.SaleClearsCopies: for clocks at which every sell order fills and every position has a price.
- EngineNumbers.PartSaleHalvesCopies: likewise.
- OrderProtocol.OneBroadcastPerKey: holds for runs in which a claim is recorded or dropped before its key expires; OneBroadcastExactlyWhen states for which bounds that is needed.
- PositionLife.LadderRemainder: needs rungs below 99.9 percent, because from there on the service sells the whole position instead of a share.
- Decision.WorseNeverLarger: compares signals whose prices are known and positive (an unknown price is rejected) under multipliers that do not grow as the price runs away and caps that are not negative.
- Drawdown.OnlineIsOffline: is about curves that never go below zero; MeterWithinSlack and EngineSound.MeterReports say what holds of the curves a backtest marks.
- Harvest.NothingHarvestedTwice: for harvests taken with no unrealized loss, with a counterexample otherwise.
- SourceTrips.SourceBook.Track: stands beside the engine, which calls it for every trade and reads nothing of it; a notional of zero, on which the code raises, is not modelled.
- SourceTrips.SplitSellCountsTwice: is about two parts that both sell something.
- Backtest.BacktestEngine.Run: does not keep the first 5000 points of the equity curve as text, nor the token a price point on the timeline belongs to, which nothing reads.
- Runs.NoLookaheadBacktest: for moments inside the windows of both runs, because a run's window ends a holding time after its last trade, and that is known from the start.
- Runs.BacktestReports: for source trades whose ids are distinct.
- Positions of a backtest are values in a table in order of entry, where the code shares one object between the table and its callers; so that aliasing is not modelled. They are identified by the reservation they grew out of, where the code draws a second uuid; ids are never reused in either.
- The count of provider misses over a run; each lookup's own miss is modelled.
- A treasury transfer that times out but lands is treated by the code as failed; the model takes the code's view. The profit-lock ratchet and the treasury's own checks, beyond refusing an amount that is not positive, are outside.
- The non-integer power in the impact model: impact is any function of size and liquidity.
- The report metrics and the verdict of a backtest.
- detect_co_trading and detect_funding_links, and the evidence merged relationships carry.
- Reason lists, details and log lines that only explain a decision; the sol_balance field; session and event rows other than position events.
- Forced bootstrap in mid-run, configuration changes in mid-run, and two writers on one position.
- The order of two positions' exits in one tick of the live service, which run concurrently on separate positions.
- Python's bisect is modelled by its result on the sorted points, and its sort as a stable insertion sort.
- Float representation in Lua and the 50-digit precision of Decimal.
- Adapters, HTTP routes, the dashboard, alerts, scoring formulas, promotion rules and deployment.

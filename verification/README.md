# Bazaar: verified models of the backtester, the quality scanner and the notifications

Bazaar is a stock-research application for the Dhaka and Chittagong exchanges. This project models the four parts of
it whose behaviour spans many steps, and proves what each of them guarantees over whole runs. `dafny verify
dfyconfig.toml` checks everything.

**The shared-cash portfolio backtester** (`market/services/backtest_engine.py`). Stocks are strictly increasing
sequences of session dates with one indicator row each; money is `real`; dates and share counts are integers.
`Engine` states each phase of a day (execute or retry orders, detect exits, detect signals, mark to market), the whole
run and the final sweep as functions on the state. `Backtester.PortfolioBacktester` is the program itself: cash,
positions, orders, trades, rejections and curve are fields that its methods update, and each method is proved to
compute its phase; `Backtest.RunBacktest` adds validation, universe selection and the report, and
`Backtest.RunWithWarnings` the warnings of the stored run. `Rules` says in row columns and configured percentages when
a session calls for an entry or an exit and what a fill or a sale moves, apart from the functions that compute it; the
phases are shown to follow these rules in `Rules`, `Fills` and `PhaseRules`. `Invariants`, told in the rules, says what
holds between two days; `Changes`, `ExecutionProofs`, `ExitProofs`, `SignalProofs` and `RunProofs` show that every
phase keeps it, `SweepProofs` that the sweep does. The results about whole runs are in `Outcomes`, `Accounting`,
`EquityCurve`, `NoLookahead`, `LoadedUniverse`, `SaleLiquidity`, `Reporting`, `Drawdown` and `Breakdown`;
`ExampleRuns` follows two small runs from beginning to end.

**The price-history quality scanner** (`market/services/data_quality.py`). `QualityFlags` defines row by row what each
flag means; `QualityScan` is the one-pass scan with its run buffer, proved to report exactly that; `QualityRescan` is
the scan over all stocks that rewrites the stored flags.

**The resumable report delivery** (`notifications/tasks.py`). `Delivery.ReportJob` sends the chunks of the daily
report and saves its progress after each. A send can be confirmed, delivered but not recorded, delivered with the
reply lost, not delivered, refused, or cut short; `DeliveryProofs` says what the reader of the chat gets over any
sequence of attempts. `ReportChunks` packs the sections into chunks.

**The personal alert rules** (`notifications/tasks.py`). `AlertRules` evaluates rules with their cooldown and
remembered signal; `AlertHistory` says which alerts a rule sends over any number of evaluations.

Two conventions. The state of the backtester carries a few counters that the program does not keep (`Audit`): signals
fired, orders scheduled, signals without a further session, orders dropped at a non-positive open, entries filled. No
step reads them, and `Accounting.CountersCount` shows that they count what their names say. And `Option` stands for
`None`, a missing database value, and `NaN` in an indicator column.

## Where the code and its documentation differ

The model follows the code in each case. "The program's README" is the `README.md` of the program, not this file.

- A stale run of five flagged rows is six equal closes, since the buffer holds only rows that repeat their
  predecessor; the program's README (line 904) speaks of five. `QualityFlags.StaleMeansSixEqualCloses`, and
  `QualityFlags.FiveEqualClosesAreNotFlagged` for five and six days.
- The program's README (line 821) promises identical signals and entries for identical histories. Beyond the histories
  a run also reads whether and when a stock's next session takes place. Given the same rows up to a day, the states
  after it are equal if and only if the universes agree on those next sessions that some step asked for: a retry with
  attempts left, an exit trigger of a position without an exit order, an entry signal that found its stock free and a
  slot open. `NoLookahead.StatesAgreeExactlyWhen` and `LoadedUniverse.LoadedStatesAgreeExactlyWhen`;
  `LoadedUniverse.NextSessionMatters` is an example with different order queues.
- The program's README (line 850) speaks of trades whose entry or exit day shows an implausible return; the code also
  flags one seen on any session in between that no exit trigger precedes. `Outcomes.FlaggedExactlyWhen`, and
  `ExampleRuns.FlaggedBetweenEntryAndExit` for a complete run.
- The comparison of the entry amount with the cash balance (market/services/backtest_engine.py:332) never rejects an
  order, because the sizing has already floored the amount. `Fills.SizedFillIsAffordable`. This holds in exact
  arithmetic; the code compares floating-point numbers, for which nothing is claimed.
- The program's README (line 841) says that `warnings` records every rejection, size-down and forced close. Each
  rejection counter that is not zero has its line (`Reporting.RejectionsAreReported`). Size-downs and forced closes are
  all there if and only if the engine's log has at most 200 lines, the line about forced closes being the first one
  lost (`Reporting.LogIsCompleteExactlyWhen`). And the rejection lines account for every signal that did not become a
  trade if and only if no free signal lacked a further session and no due order met a non-positive open
  (`Reporting.ReportCoversLossesExactlyWhen`); `ExampleRuns.UnpricedEntryLeavesNoTrace` is a complete run that loses
  its only signal without any warning.
- The program's README (line 840) says that no single trade exceeds the liquidity cap. That holds of entries; a sale
  closes the whole position whatever trades on its session, and breaks the cap if and only if one share more than the
  exit session allows was still within the three limits at the entry. `SaleLiquidity.SaleExceedsCapExactlyWhen`, and
  `SaleLiquidity.SaleBeyondTheCap` for an example.
- The last known price of a position stands still while its sale is waiting (`Invariants.Selling`).
- A retry resumes by chunk number although the report is rebuilt for every attempt: if the report changed in between,
  the chat ends up with a mixture that is marked as sent. `DeliveryProofs.ReportIsWholeExactlyWhen` and
  `DeliveryProofs.ChangedReportIsMixed`.
- A forced resend that dies half-way stays marked as sent, and no later attempt completes it unless it is forced too.
  `DeliveryProofs.ForcedResendStaysPartial` and `DeliveryProofs.ForcedResendIsLost`.

## Model

| member | source | states |
|---|---|---|
| Outcomes.MoneyIsConserved | market/services/backtest_engine.py:528-551 | the final cash is the initial cash plus the unrounded net profit of all trades, for every configuration and universe |
| Outcomes.MoneyIsConservedDaily | market/services/backtest_engine.py:335-347 | after any number of days, cash plus what the open positions cost equals initial cash plus realised net profit |
| Outcomes.CostsExplainTheRest | market/services/backtest_engine.py:380-388 | final cash is initial cash plus what the shares of all trades gained between the raw prices of their entry and exit sessions, less for every round trip the adverse move (spread + slippage)/100 and the fee (brokerage + tax)/100 on each side, the adverse move at the exit for real sales only |
| Outcomes.ReportExplainsFinalCash | market/services/backtest_engine.py:389-404 | the rounded net profits in the report explain the final cash to half a cent per trade |
| EquityCurve.CashNeverNegative | market/services/backtest_engine.py:316-380 | with non-negative prices and initial cash and costs of at most 100%, cash is non-negative after every day and after the sweep |
| EquityCurve.SettlementIdentity | market/services/backtest_engine.py:514-537 | final cash is the last recorded cash plus the last recorded value of the positions times 1 - (brokerage + tax)/100 |
| EquityCurve.CurveIsDaily | market/services/backtest_engine.py:514-526 | the curve has one point per calendar day, and point i values the state after day i |
| EquityCurve.CurveIsTruthful | market/services/backtest_engine.py:514-526 | every point is dated by the calendar, shows the cash and the number of positions after its day, has an equity of cash plus value and an exposure of a hundred times value over equity (zero without equity), fits the slots and, with non-negative prices, is solvent |
| EquityCurve.CurveStartsAtInitialCash | market/services/backtest_engine.py:283-289 | nothing can be held on the first day, so the curve starts at the initial cash |
| EquityCurve.SolventDaily | market/services/backtest_engine.py:412-526 | in every state between days at most `max_positions` are open and, with non-negative prices, cash and book value are non-negative |
| RunProofs.DayKeeps | market/services/backtest_engine.py:412-526 | one day keeps the invariant: queue and book fit together, orders wait correctly, positions and trades are sound, accounts balance |
| RunProofs.RunKeeps | market/services/backtest_engine.py:412-526 | the invariant holds after every number of days of every run |
| ExecutionProofs.OrdersKept | market/services/backtest_engine.py:413-448 | executing and retrying orders loses no position's exit order, overwrites no position and keeps the accounts |
| ExitProofs.PositionsScanned | market/services/backtest_engine.py:450-483 | the exit scan leaves every position either untriggered and marked at the latest session, or ordered to be sold on its first trigger |
| PhaseRules.AllScanned | market/services/backtest_engine.py:450-483 | the new sale orders are exactly one for each position without one that has a session today, whose low, close or holding time calls for an exit, and that has a further session: on it, with 10000 attempts and the reason that applies; the new trades are those of such positions without a further session, at today's close; all other positions stay, marked at today's close |
| SignalProofs.SignalsHeard | market/services/backtest_engine.py:485-512 | queueing entries never gives a stock two entry orders, an entry order while it is held, or more entries than slots |
| Accounting.PhaseHeard | market/services/backtest_engine.py:485-512 | as many signals are heard as stocks call for an entry; each ends as an order, a rejection or without a session; each new order is called for, targets the next session and has five attempts; cash, book and trades stay |
| SignalProofs.SignalOutcome | market/services/backtest_engine.py:496-512 | which counter or order a session that calls for an entry leads to, told from whether its stock is held or being bought, the slots are full, and a session follows |
| SignalProofs.NoSignalIsLost | market/services/backtest_engine.py:485-512 | after the phase each stock whose session calls for an entry is held or being bought, or the slots are full, or it has no further session in the window |
| Outcomes.TradesAreSound | market/services/backtest_engine.py:412-537 | every trade fills its entry on the first session with volume after its signal within five sessions, inside the liquidity cap, leaves on the first trigger by exactly one of the three exits, and has gross, costs, net and return of its shares at the raw prices of its sessions; trades of one stock follow each other |
| Outcomes.EntriesAreCalledFor | market/services/backtest_engine.py:150-176 | every trade and every waiting entry goes back to a session whose RSI was below 35 or whose MACD had risen through its signal line since the session before (default strategy); both, with the volume at least the ratio times a positive average and the share of stocks above their average at least the threshold (strict strategy) |
| Rules.FiresByRule | market/services/backtest_engine.py:150-176 | a session fires an entry signal iff it calls for one in these terms |
| Outcomes.AmountsFollowPrices | market/services/backtest_engine.py:363-404 | entry price, gross profit, costs, net profit and return of a trade follow from its shares, the entry row's open, the exit row's open (close, if synthetic) and the four cost percentages |
| Fills.TradeSettles | market/services/backtest_engine.py:354-410 | closing a position records these amounts: net is gross less the fees and adverse moves, and also what the sale brings less what the entry took, with and without exit costs, and the return is on what was paid |
| Outcomes.TradeDatesOrdered | market/services/backtest_engine.py:389-409 | signal strictly before entry, entry not after exit, and strictly before it for a real sale |
| Outcomes.RoundTripsAreDisjoint | market/services/backtest_engine.py:440-512 | a later trade of the same stock has its signal not before the earlier one's exit |
| Outcomes.TriggerWithinHold | market/services/backtest_engine.py:466-474 | the first trigger comes at most `hold_days` sessions after the entry |
| Outcomes.SaleFollowsTrigger | market/services/backtest_engine.py:440-483 | a real sale follows its trigger; in a stock that always trades it is the next session, so within `hold_days` + 1 sessions of the entry |
| Outcomes.ReasonTellsWhy | market/services/backtest_engine.py:469-476 | a sale is stopped out iff on the trigger session the low (the close, if the low is zero) was at most entry price x (100 - stop)/100; has reached its target iff the close was at least entry price x (100 + target)/100 and it was not stopped out; otherwise `hold_days` sessions passed with neither on any session |
| Outcomes.FlaggedExactlyWhen | market/services/backtest_engine.py:445-464 | a trade is flagged iff a return of at least 25% up or down shows on its exit session or on a session from its entry on that no exit rule precedes |
| ExampleRuns.FlaggedBetweenEntryAndExit | market/services/backtest_engine.py:462-464 | a complete run whose only trade is flagged for the session between entry and exit alone |
| Outcomes.JumpAtEitherEndIsFlagged | market/services/backtest_engine.py:445-464 | a return of at least 25% up or down on the entry or exit session flags the trade |
| Outcomes.NoEntryOutlivesTheRun | market/services/backtest_engine.py:420-438 | after the last calendar day no entry order is waiting |
| Outcomes.SignalsAreAccounted | market/services/backtest_engine.py:496-512 | the (day, stock) pairs that call for an entry over the whole calendar number orders queued + already open + slots full + free signals without a further session |
| Outcomes.OrdersAreAccounted | market/services/backtest_engine.py:305-352 | orders queued = trades + rejected + abandoned + due orders that meet a non-positive open, and the abandoned ones are exactly those whose sessions ran out |
| Accounting.AbandonedExactlyWhen | market/services/backtest_engine.py:420-438 | a waiting entry is abandoned iff it is due, no session from its signal through today traded, and today is the fifth session after the signal or the last one in the window |
| Accounting.AbandonedAreExpired | market/services/backtest_engine.py:420-438 | after any number of days the abandoned counter is the number of such orders |
| Accounting.CountersCount | market/services/backtest_engine.py:412-512 | after any number of days the history counters equal the numbers of firing (day, stock) pairs, of queue entries added, of free signals without a session, and of due orders at a non-positive open |
| SweepProofs.Swept | market/services/backtest_engine.py:528-537 | the sweep closes every position exactly once, waiting for a sale or not, at its last known price |
| SweepProofs.SweepsInOrder | market/services/backtest_engine.py:528-537 | the sweep records first the positions that wait for a sale, in the order of the queue, then the others in the order of the book, each sold on the day and at the price of its mark less the fee |
| Fills.SizedIsLargest | market/services/backtest_engine.py:316-322 | n shares are within the size iff n x open x (1 + (spread + slippage)/100) is within the equity fraction, n within the session's liquidity, and that amount with the fee on top within the cash: an entry buys the largest such number |
| Fills.SizedFillIsAffordable | market/services/backtest_engine.py:316-335 | the sized amount never exceeds the cash and the shares never exceed the liquidity cap |
| Fills.OpenOutcome | market/services/backtest_engine.py:305-352 | a due entry is filled exactly if its open is positive, its range not empty under the strict strategy, its volume at least the minimum, and one share within the three limits; otherwise it is counted once |
| Fills.EntriesByRule | market/services/backtest_engine.py:305-352 | a filled order takes n x open x (1 + (spread + slippage)/100) x (1 + (brokerage + tax)/100) from the cash for the largest n within the limits and books a position with its prices, fee, adverse move, mark and flag; an order that is not filled moves nothing but one counter |
| Rules.SalesByRule | market/services/backtest_engine.py:354-447 | a due sale takes the position out of the book and adds n x open x (1 - (spread + slippage)/100) x (1 - (brokerage + tax)/100) to the cash, with the trade recorded in the same percentages; without a position nothing happens |
| Rules.ClosedByRule | market/services/backtest_engine.py:354-410 | the same of any close at a raw price; a synthetic one brings n x price x (1 - (brokerage + tax)/100) |
| PhaseRules.ExecutesByRule | market/services/backtest_engine.py:413-448 | which of these happens to an order of the loop, and what it does to the account, the book and the queue |
| Fills.CloseTakesCashExactlyWhen | market/services/backtest_engine.py:364-380 | a close lowers the cash exactly when one share, at the raw price less the adverse move and the fee, brings less than nothing |
| Fills.SyntheticProceeds | market/services/backtest_engine.py:370-379 | a synthetic close brings the market value times 1 - (brokerage + tax)/100 |
| SaleLiquidity.SaleIgnoresVolume | market/services/backtest_engine.py:443-447 | a due sale closes the whole position, whatever the volume of its session |
| SaleLiquidity.SaleExceedsCapExactlyWhen | market/services/backtest_engine.py:316-447 | the sale of a position takes more than the capped part of its session's volume iff one share more than that was still within the equity fraction, the liquidity and the cash at the entry |
| SaleLiquidity.TradesWithinCap | market/services/backtest_engine.py:320-447 | every entry of a run fits the cap of its session, and every sale on a session with at least the volume of the entry does |
| SaleLiquidity.SaleBeyondTheCap | market/services/backtest_engine.py:443-447 | five shares sold on a session whose cap is half a share |
| NoLookahead.StatesAgreeExactlyWhen | market/services/backtest_engine.py:412-526 | two universes with the same rows through day d have the same cash, positions, orders, trades, rejections and curve after d if and only if they agree on every next session that a step through d asked for |
| NoLookahead.OrdersAwaitNextSession | market/services/backtest_engine.py:424-426 | after every day each order for a later session waits for the very next session of its stock |
| NoLookahead.PastDecidesPresent | market/services/backtest_engine.py:412-526 | in particular the states agree when the universes agree on each stock's next session, whatever comes after it |
| LoadedUniverse.FilterIsInvisible | market/services/backtest_engine.py:266-279 | leaving out the stocks without a session in the window changes no day and no state of the run |
| LoadedUniverse.LoadedStatesAgreeExactlyWhen | market/services/backtest_engine.py:266-279 | the same exact condition for universes as loaded, before stocks without a session in the window are left out |
| LoadedUniverse.LoadedPastDecidesPresent | market/services/backtest_engine.py:266-279 | and the same particular case for them |
| LoadedUniverse.NextSessionMatters | market/services/backtest_engine.py:211-257 | two universes that the loader lets through, equal through day 100, whose orders differ because only one has a further session |
| Calendars.NothingSkipped | market/services/backtest_engine.py:266-279 | no session of any stock lies strictly between two consecutive calendar days |
| Calendars.Calendar | market/services/backtest_engine.py:266-279 | the calendar is strictly increasing and holds exactly the in-window sessions of all stocks |
| Calendars.Eligible | market/services/backtest_engine.py:270 | exactly the stocks with a session in the window take part |
| Backtest.CalendarOfEligible | market/services/backtest_engine.py:266-279 | leaving out the other stocks does not change the calendar |
| MarketData.NextDate | market/services/backtest_engine.py:253-257 | the next session is the first one after the day, unless that lies beyond the window |
| Numbers.FloorDiv | market/services/backtest_engine.py:319-321 | the floored quotient is the integer whose multiple of the divisor is closest from below |
| Numbers.RoundTo | market/services/backtest_engine.py:397-404 | rounding moves a number by at most half a unit of the last place |
| Numbers.RoundsToTick | market/services/backtest_engine.py:397-404 | the rounded number is the nearest multiple of the unit, the even one of two equally near |
| Backtester.PortfolioBacktester.constructor | market/services/backtest_engine.py:283-289 | a fresh account with the initial cash and nothing else |
| Signals.BreadthIsShare | market/services/backtest_engine.py:293-303 | breadth is the number of stocks closing above their 50-session average over the number that have one that day, and zero if none has |
| Backtester.PortfolioBacktester.MeasureBreadth | market/services/backtest_engine.py:293-303 | the loop computes that share, stated with the cardinalities of the two sets of stocks |
| Backtester.PortfolioBacktester.OpenPosition | market/services/backtest_engine.py:305-352 | fills the order exactly when it is fillable, lowers the cash by n x open x (1 + (spread + slippage)/100) x (1 + (brokerage + tax)/100) for the largest n within the limits, books the position, and yields the specified state |
| Backtester.PortfolioBacktester.ClosePosition | market/services/backtest_engine.py:354-410 | raises the cash by n x price x (1 - (spread + slippage)/100, if costs apply) x (1 - (brokerage + tax)/100) and records the trade in the same percentages; its net is gross less costs, and the cash moves by what was paid plus the net |
| Backtester.PortfolioBacktester.ExecuteOrder | market/services/backtest_engine.py:415-447 | keeps one order until it is due, retries it on the next session with one attempt less if its session does not trade, abandons an entry without session or attempts, and otherwise fills or sells at the open; yields the specified state |
| Backtester.PortfolioBacktester.ExecutePending | market/services/backtest_engine.py:413-448 | the order loop computes the first phase |
| Backtester.PortfolioBacktester.ScanPosition | market/services/backtest_engine.py:452-483 | keeps, marks, closes or orders the sale of one position as its low, close and holding time call for, and yields the specified state |
| Backtester.PortfolioBacktester.ScanExits | market/services/backtest_engine.py:450-483 | orders exactly the sales, and closes exactly the positions, that prices and holding times call for, and computes the second phase |
| Backtester.PortfolioBacktester.HearStock | market/services/backtest_engine.py:487-512 | queues, rejects or counts one stock's signal iff the columns of its session call for an entry, and yields the specified state and set of taken stocks |
| Backtester.PortfolioBacktester.ScanSignals | market/services/backtest_engine.py:485-512 | hears as many signals as stocks call for an entry, queues only such stocks, and computes the third phase |
| Backtester.PortfolioBacktester.RecordEquity | market/services/backtest_engine.py:514-526 | appends one point with the day's date, cash, number and value of positions, equity and exposure |
| Backtester.PortfolioBacktester.ForceCloseAll | market/services/backtest_engine.py:528-537 | both loops of the final sweep compute the specified sweep |
| Backtester.PortfolioBacktester.RunDay | market/services/backtest_engine.py:412-526 | the four phases in order compute one specified day |
| Backtester.PortfolioBacktester.Run | market/services/backtest_engine.py:291-537 | the whole run ends in the final state all results speak of |
| Backtest.SelectUniverse | market/services/backtest_engine.py:266-279 | the loop collects exactly the eligible stocks and the calendar |
| Backtest.RunBacktest | market/services/backtest_engine.py:234-555 | an inverted range and an empty universe are reported as such and nothing else is; a completed run reports each trade of the final state with its stock, dates, shares, reason and flag, money to the cent, prices to four places and the return to three, with the curve, cash and counters of that state and the first 200 lines of its log; it starts at the initial cash, settles, and explains its final cash by its reported trades |
| Backtest.RunIsReported | market/services/backtest_engine.py:389-555 | the same of the report of every run: no amount is off by more than half a unit of its last place, and each is a multiple of that unit |
| Reporting.SizedDownExactlyWhen | market/services/backtest_engine.py:326-327 | a fill of n shares is logged as sized down, with n, iff n + 1 shares would still have fitted the equity fraction |
| Reporting.AbandonmentsAreLogged | market/services/backtest_engine.py:427-432 | after any number of days the log holds one abandonment per entry the counter counts, and otherwise only size-downs |
| Reporting.AbandonmentsAreNamed | market/services/backtest_engine.py:427-432 | the log names a stock and a signal date as abandoned iff an entry order with these ran out of sessions on some day |
| Reporting.LogIsCompleteExactlyWhen | market/services/backtest_engine.py:539-553 | the engine hands on its whole log iff it has at most 200 lines, and the line about forced closes, present with their number iff there are any, is lost first |
| Reporting.RejectionsAreReported | market/services/backtest.py:105-107 | the stored run has a line for a rejection counter iff that counter is not zero, with its count |
| Reporting.ReportInOrder | market/services/backtest.py:98-107 | the stored warnings are, in order, at most 200 lines of the log, the number of flagged trades, and the counters for liquidity or cash, slots, open positions and abandoned entries, each only if not zero |
| Reporting.ReportCoversLossesExactlyWhen | market/services/backtest.py:98-107 | the signals lost are the sum of the rejection lines plus the free signals without a session plus the orders that met a non-positive open; so the lines cover all losses iff those two are zero |
| ExampleRuns.UnpricedEntryLeavesNoTrace | market/services/backtest_engine.py:309-310 | a complete run in which a signal fires and its order falls due at an open of zero: no trade, no rejection, no warning |
| Backtest.CollectWarnings | market/services/backtest.py:98-107 | the loop appends the line about excluded trades and one line per non-zero counter to what the engine handed on |
| Backtest.RunWithWarnings | market/services/backtest.py:73-107 | the warnings of the stored run are those the results above speak of |
| Drawdown.DrawdownIsWorstChange | market/services/backtest_engine.py:569-571 | the running-maximum drawdown is the worst percentage change between any day and a later one: no pair falls by more, some pair changes by just that, and it lies between -100% and 0% |
| Drawdown.RunsHaveDrawdowns | market/services/backtest_engine.py:558-571 | with non-negative prices and positive initial cash the curve of every run satisfies the conditions for this |
| Breakdown.BreakdownBy | market/services/backtest_engine.py:614-631 | there is an entry for exactly the keys that occur, with the numbers of all trades with that key |
| Breakdown.EntryIsTruthful | market/services/backtest_engine.py:619-631 | an entry has the number of its trades, the share with positive net profit to four places, the mean return to three, the total net profit to the cent, and is a small sample iff there are fewer than twenty |
| Breakdown.SumsAdd | market/services/backtest_engine.py:619-631 | the sums behind mean and total add up over the parts of any list, down to the single trade |
| Breakdown.GroupsPartition | market/services/backtest_engine.py:614-618 | the groups together hold every trade once and add up to the whole net profit |
| QualityScan.ValidateOhlcv | market/services/data_quality.py:73-91 | the list holds exactly the violated rules, each once, and is empty iff all prices are known and positive, open and close lie within the range and the volume is not negative |
| QualityScan.InspectRow | market/services/data_quality.py:167-186 | a row gets exactly the flags due to itself and its predecessor; it reports a gap, from the earlier date to the later with their distance, iff that is more than ten days |
| QualityScan.FlushRun | market/services/data_quality.py:162-165 | flushing flags every row of a long enough run and changes nothing else |
| QualityScan.ScanRows | market/services/data_quality.py:150-196 | the streaming pass flags a row as stale exactly when it lies in a window of at least five rows that all repeat their predecessor, at the end of the history too |
| QualityScan.ScanStock | market/services/data_quality.py:150-199 | sorted flags and counters are what the meaning of the flags calls for, and the gaps are exactly the distances of more than ten days between consecutive rows, each from the earlier to the later date, in row order |
| QualityScan.GapsAreLapses | market/services/data_quality.py:169-182 | the same of the gaps before any number of rows |
| QualityScan.GapsAreFlagged | market/services/data_quality.py:169-182 | there is one gap per row flagged for one |
| QualityFlags.FlagsInPrices | market/services/data_quality.py:73-186 | what every flag but the stale one says in prices and days, among them a close at least a quarter above or below the one before and more than ten days since the row before |
| QualityFlags.MaximalRun | market/services/data_quality.py:162-196 | in a maximal run of repeats a row lies in a long enough window iff the run has at least five rows |
| QualityFlags.StaleMeansSixEqualCloses | market/services/data_quality.py:187-191 | a row is stale iff it follows the first of at least six equal closes, the last five of them traded |
| QualityFlags.FiveEqualClosesAreNotFlagged | market/services/data_quality.py:162-196 | five equal traded closes carry no flag; with a sixth, all but the first are stale |
| QualityFlags.SortedLists | market/services/data_quality.py:199 | sorting a flag set lists exactly its members, each once, in the alphabetical order of their codes |
| QualityRescan.PriceTable.StoreFlags | market/services/data_quality.py:225-234 | afterwards the stored flags are the current ones, other stocks are untouched, and as many rows are written as were out of date |
| QualityRescan.PriceTable.RunQualityScan | market/services/data_quality.py:202-246 | every stock becomes current, totals equal the counts over all rows, gaps equal the gap flags, and the rows written are those that were out of date |
| QualityRescan.PriceTable.ScanTwice | market/services/data_quality.py:202-246 | a second scan of unchanged prices finds the same and writes nothing |
| QualityRescan.GapTotals | market/services/data_quality.py:222-223 | over all stocks the number of gaps is the total of the gap flag |
| Delivery.ReportJob.SendReport | notifications/tasks.py:373-480 | the job computes the specified attempt: every skip, the resume point, each save and each error status |
| DeliveryProofs.AttemptSkipsExactlyWhen | notifications/tasks.py:387-445 | an attempt is skipped exactly for the reason it gives, and only a missing configuration leaves a mark: the status skipped, with the chunks counted |
| DeliveryProofs.AttemptEndsAs | notifications/tasks.py:404-477 | any other attempt sends from the first chunk not on record up to the first that is not confirmed; that reply decides the outcome, and the outcome the status: sent, retrying or after the last retry failed, failed, or unchanged; the chat and the message ids grow by the chunks in order, and a completed record keeps the first message id |
| DeliveryProofs.DeliveryIsSafe | notifications/tasks.py:404-477 | over any run of unforced attempts: chunks sent = message ids = attempts = messages known to have arrived, these are the first chunks, messages come in order, at most one extra per lost acknowledgement, and sent means all arrived |
| DeliveryProofs.ExactlyOnce | notifications/tasks.py:447-460 | without lost acknowledgements the chat holds each recorded chunk exactly once and nothing else |
| DeliveryProofs.ProgressIsMonotone | notifications/tasks.py:447-460 | progress and chat never shrink over a run of unforced attempts, whatever their reports |
| DeliveryProofs.SentIsFinal | notifications/tasks.py:411-412 | after a report is sent, unforced attempts change nothing |
| DeliveryProofs.SentExactlyWhen | notifications/tasks.py:447-477 | an unforced attempt leaves the report sent iff it was sent already or every remaining send is confirmed and the job lives to its end |
| DeliveryProofs.NothingIsTakenBack | notifications/tasks.py:447-471 | one unforced attempt only adds to chat, ids and progress, and loses at most one acknowledgement |
| DeliveryProofs.ReportIsWholeExactlyWhen | notifications/tasks.py:414-453 | a completed attempt has its own report in the chat iff what was recorded before is a beginning of that report |
| DeliveryProofs.ChangedReportIsMixed | notifications/tasks.py:414-453 | two attempts with different reports that end as sent with one chunk of each |
| DeliveryProofs.ForcedAttemptResendsAll | notifications/tasks.py:430-435 | a forced attempt without faults sends the whole report again and restarts the counters |
| DeliveryProofs.ForcedResendStaysPartial | notifications/tasks.py:430-460 | a forced resend of a sent report, whatever its new chunks, leaves it marked as sent with chunks outstanding iff the job is cut short after some progress, or before any on a record that was so already |
| DeliveryProofs.ForcedResendIsLost | notifications/tasks.py:411-460 | a report sent, resent by force with other chunks and cut after the first: marked as sent with one of three chunks, and a later attempt does nothing |
| ReportChunks.SplitForTelegram | market/services/ml_daily_report.py:472-487 | chunks are consecutive groups of whole sections; one exceeds the limit only if it is a single section, each later one starts with a section that no longer fitted the chunk before, and joining them with blank lines gives the joined sections when none is empty |
| AlertRules.AlertRule.Check | notifications/tasks.py:72-101 | a price rule fires iff the last price is at least the target, a move rule iff the change is at least the threshold up or down, a signal rule iff the signal differs from the one remembered, a confidence rule iff a hundred times the confidence is at least the minimum, each with the two values in its message; the signal read and the confidence reported are remembered |
| AlertRules.EvaluateRule | notifications/tasks.py:115-132 | one rule: silent and unchanged when inactive or less than four hours after its last trigger, else checked as above and its trigger time remembered |
| AlertRules.EvaluateRules | notifications/tasks.py:106-133 | every rule is evaluated once on its own memory and stock; an alert is stored iff it tells the trigger of a rule on a channel its user chose, on Telegram only if the message got through; and the triggers are counted |
| AlertHistory.AlertsAreSpaced | notifications/tasks.py:69-133 | two triggers of one rule of any type are at least four hours apart for each step between them, whatever the clock does |
| AlertHistory.CooldownIsSilent | notifications/tasks.py:115-117 | evaluations less than four hours after the last trigger change nothing and alert nobody |
| AlertHistory.AlertsAreFlips | notifications/tasks.py:85-94 | the alerts of a signal rule are exactly the changes between consecutive signals read outside the cooldown |
| AlertHistory.SignalAlertsChain | notifications/tasks.py:85-94 | each alert names two different signals and starts where the previous one ended, the first at the first signal ever seen |
| AlertHistory.FlipAndFlipBackIsSilent | notifications/tasks.py:85-117 | a flip taken back within the cooldown is never reported |

## Left out

- Loading of histories and universe: database queries, the ranking by traded value, the minimum history length and the indicator computation; each stock arrives as its rows.
- Floating point: prices and money are exact reals, so rounding appears only where the code rounds for the report. Infinite values do not occur.
- Costs that reach -100%, where the code divides by zero, and a universe that lists one stock id twice, which the database rules out.
- An unknown strategy name, which the code rejects with an error on the first signal it evaluates; the model has the two known strategies.
- Heap objects for positions and orders: the code updates `last_price`, `target_date` and `attempts_left` in place on objects held in a dictionary and a list. Here positions and orders are values in sequences that the methods rebuild in the same order; nothing else holds a reference to them in the code. The exit phase takes the positions out first and puts them back one by one.
- The wording of warnings (their kinds, counts and order are modelled), the exchange, sector and year of a trade, and its calendar holding days.
- Return, Sharpe and Sortino ratios, profit factor, turnover, benchmarks and the index proxy: roots, powers and data from elsewhere. `_breakdown_by` appears with an arbitrary key, and its keys are not sorted.
- Provenance labels, revisions and import batches of the quality module, its filters by exchange and number of stocks (the histories given are those scanned), and gaps are reported without the stock's names.
- The scanner's stored flags of rows that no scanned stock owns; the model says that they stay as they are.
- Composition of the report, its snapshot, hash and timestamps, error texts, and truncation of long messages by the sender; the reply to each send is an input.
- Locks, retry timing, schedules and the calendar day of a report: mutual exclusion is assumed (an attempt that finds the lock taken does nothing), and one record stands for one day and recipient.
- Users, profiles and the sending of alerts: whether a Telegram message gets through is an input. A crash between the save of a signal and the save of its trigger time is not modelled; the code would lose that alert. The stored confidence is not rounded to two places, and nothing reads it.
- The portfolio ledger, paper trading, digests, reminders, operational alerts, accounts, feedback, forms and views.

# Budget pacing simulator: a Dafny model

This project models the core of a budget-pacing simulator for online ad
auctions and proves properties of that model. The simulator is the Python
repository `yahoo/BudgetPacingSimulation`. Each simulated minute, the serving system does the following:

- it collects a bid from every running campaign relevant to the auction;
- it runs a first-price auction;
- it charges the winner;
- it reports each campaign's spend to the Mystique pacing controller.

The controller turns the gap between actual and target spend into a
*pacing signal* (PS, in [0, 1]) that scales the next bids. At the end of
each day, campaigns roll their statistics over. The controller relearns
each campaign's target spend curve, and finished campaigns are retired.

| file | models |
|---|---|
| `utils.dfy` | `src/utils.py`, `src/system/budget_pacing/mystique/mystique_utils.py` |
| `clock.dfy` | `src/system/clock.py`, `src/system/budget_pacing/mystique/clock.py` |
| `mystique_constants.dfy` | `src/system/budget_pacing/mystique/mystique_constants.py` |
| `bids.dfy` | `src/system/bid.py`, `src/system/auction.py`, the configuration values they read |
| `campaign.dfy` | `src/system/campaign.py` |
| `tracked_campaign.dfy` | `src/system/budget_pacing/mystique/mystique_tracked_campaign.py` |
| `target_slope.dfy` | `src/system/budget_pacing/mystique/target_slope.py` |
| `mystique.dfy` | `src/system/budget_pacing/mystique/mystique.py` |
| `serving.dfy` | `src/system/serving_system.py` |
| `daily_totals.dfy` | the per-day `_calculate_*` aggregations of `src/system/serving_system.py` |

The source's form is kept, file by file:

- **Classes.** Objects whose fields the source updates in place are classes with `modifies` frames. These are the clocks, `CampaignStatistics`, `Campaign`, `MystiqueTrackedCampaign`, `MystiquePacingSystem` and `ServingSystem`.
- **Pure code.** Pure code is functions.
- **Loops.** The source's loops are methods with invariants, proved against specification functions. These include:
  - the target spend array;
  - the nonlinear slope update and its smoothing;
  - the per-day aggregations;
  - the serving system's loops over its campaigns.
- **Mutable collections.** Dictionaries and lists that the source mutates are `map` and `seq` fields.
- **Clocks.** Each of the source's global clocks is one `Clock` object that callers pass in. A method that reads the clock receives it as a parameter.
- **Errors.** Where the source raises or fails an assertion on an input its callers can supply, the model returns `Option`/`Result`-like values or an `ok` flag. A few members instead exclude by precondition an input on which the source would raise; each of them is listed under "Left out" with the reason.

Reals stand in for Python floats. `math.isclose` is modelled exactly over the reals. Dafny's `/` and `%` on naturals agree with Python's `//` and `%` on non-negative operands, which is the only way the source uses them.

## Model

| member | source | states |
|---|---|---|
| Utils.BeginningOfModuloLocation | src/utils.py:1-8 | for a non-empty list the result is a multiple of `modulo` inside the list, with 1 to `modulo` elements after it; for an empty list it is `-modulo` |
| Utils.LastBlockStart | src/utils.py:4-8 | the last block starts at a multiple of the block size |
| Utils.LastBlockStartUnique | src/utils.py:4-8 | the location is the only multiple of `modulo` that leaves 1 to `modulo` elements after it, so the property above determines it |
| Utils.DocumentedExample | src/utils.py:2-3 | the docstring's example: length 16 cut by 7 gives 14 |
| MystiqueUtils.SumAppend | src/system/budget_pacing/mystique/mystique_utils.py:16-18 | `sum` of a concatenation is the sum of the sums |
| MystiqueUtils.SumNonNegative | src/system/budget_pacing/mystique/mystique_utils.py:16-18 | the sum of non-negative values is non-negative |
| MystiqueUtils.SumBounds | src/system/budget_pacing/mystique/mystique_utils.py:27-30 | elements in [lo, hi] give a sum in [n·lo, n·hi] |
| MystiqueUtils.BeginningOfModuloLocation | src/system/budget_pacing/mystique/mystique_utils.py:6-13 | the same last-block location as the project-wide helper |
| MystiqueUtils.LastItems | src/system/budget_pacing/mystique/mystique_utils.py:16-18 | one entry per tuple, each the tuple's last component |
| MystiqueUtils.SumOfLastTupleItem | src/system/budget_pacing/mystique/mystique_utils.py:16-18 | 0 for an empty list; not negative when no last component is |
| MystiqueUtils.SumOfLastTupleItemAppend | src/system/budget_pacing/mystique/mystique_utils.py:16-18 | the sum over a concatenation is the sum of the two sums |
| MystiqueUtils.SumOfLastTupleItemFromModuloLocation | src/system/budget_pacing/mystique/mystique_utils.py:21-24 | 0 for an empty list; with no negative component, between 0 and the sum over the whole list |
| MystiqueUtils.LastBlockSum | src/system/budget_pacing/mystique/mystique_utils.py:21-24 | the last-block sum is the sum of the last components of the tuples from the block's start to the end, 0 for an empty list |
| MystiqueUtils.ChunkStartsInside | src/system/budget_pacing/mystique/mystique_utils.py:29 | every chunk index `range(0, len, size)` produces starts inside the list |
| MystiqueUtils.AveragePerSize | src/system/budget_pacing/mystique/mystique_utils.py:27-30 | one average per chunk of `size` elements, the last chunk possibly shorter |
| MystiqueUtils.HourlyAveragesOfADay | src/system/budget_pacing/mystique/mystique_utils.py:27-30 | 1440 minute samples give 24 hourly averages |
| MystiqueUtils.MeanBetween | src/system/budget_pacing/mystique/mystique_utils.py:30 | a chunk's mean lies between bounds of its elements |
| MystiqueUtils.Mean | src/system/budget_pacing/mystique/mystique_utils.py:30 | the mean times the chunk length is the chunk sum |
| MystiqueUtils.Min | src/system/budget_pacing/mystique/mystique_tracked_campaign.py:36 | Python's `min` of two values: at most either, and one of them |
| MystiqueUtils.AveragePerSizeBounds | src/system/budget_pacing/mystique/mystique_utils.py:27-30 | when every element lies in [lo, hi], so does every chunk average |
| Clock.MinuteInDayAt | src/system/clock.py:14-16 | the minute of the day is below 1440 |
| Clock.DaysAt | src/system/clock.py:26-28 | `days` whole days fit in the iteration count and `days + 1` do not |
| Clock.Clock.constructor | src/system/clock.py:8 | the class-level counter starts at 0 |
| Clock.Clock.Advance | src/system/clock.py:10-12 | the counter grows by exactly one |
| Clock.Clock.Reset | src/system/clock.py:30-32 | the counter returns to 0 |
| Clock.Clock.MinuteInDay | src/system/clock.py:14-16 | below 1440, and `days · 1440 + minute_in_day` is the iteration count |
| Clock.Clock.MinuteInHour | src/system/clock.py:18-20 | below 60, and `60 · hour_in_day + minute_in_hour` is the minute of the day |
| Clock.Clock.HourInDay | src/system/clock.py:22-24 | below 24, and the minute of the day falls inside that hour |
| Clock.Clock.Days | src/system/clock.py:26-28 | `days · 1440 + minute_in_day` is the iteration count |
| Clock.DayOfAdvances | src/system/clock.py:14-16 | 1440 advances raise `days` by exactly one and leave the minute of the day unchanged |
| MystiqueClock.Clock.Advance | src/system/budget_pacing/mystique/clock.py:10-12 | the counter grows by exactly one |
| MystiqueClock.Clock.Reset | src/system/budget_pacing/mystique/clock.py:22-24 | the counter returns to 0 |
| MystiqueClock.Clock.Minutes | src/system/budget_pacing/mystique/clock.py:14-16 | below `n_iterations_per_day`, and `days · n_iterations_per_day + minutes` is the iteration count |
| MystiqueClock.Clock.Days | src/system/budget_pacing/mystique/clock.py:18-20 | `days` whole days fit in the iteration count and `days + 1` do not |
| MystiqueClock.Clock.constructor | src/system/budget_pacing/mystique/clock.py:8 | the class-level counter starts at 0 |
| Bids.EqIsSameBid | src/system/bid.py:10-13 | two bids are equal exactly when campaign and amount agree |
| Bids.Eq | src/system/bid.py:10-13 | `==` holds exactly when the other side is present and is the same bid |
| Bids.LtStrictOrder | src/system/bid.py:15-18 | `<` is irreflexive, asymmetric and transitive on bids, and false against None |
| Bids.GtCharacterised | src/system/bid.py:4-18 | the derived `>` holds against None, and otherwise exactly for a larger amount or the same amount from another campaign |
| Bids.TiedBidsBothGreater | src/system/bid.py:4-18 | two tied bids from different campaigns are each greater than the other, and neither is less |
| Bids.MaxBid | src/system/bid.py:15-18 | `max` returns an element with the highest amount, and no later element has as high an amount |
| Bids.MinBid | src/system/bid.py:15-18 | `min` returns an element with the lowest amount, and no earlier element has as low an amount |
| Bids.MaxOfTiedPairIsSecond | src/system/bid.py:15-18 | of two tied bids from different campaigns, `max` picks the second and `min` the first |
| Auction.Run | src/system/auction.py:36-42 | at most one winner; none without bids; a winner's payment is its own amount, the highest of all bids; no winner exactly when every bid is below the minimal bid |
| Auction.WinnerIsLastOfTied | src/system/auction.py:39 | the winner is the last of the bids tied at the highest amount |
| Campaigns.Zeros | src/system/campaign.py:45-48 | `[0] * n` has `n` entries summing to 0 |
| Campaigns.ZeroCounts | src/system/campaign.py:45-48 | `[0] * n` has `n` counters summing to 0 |
| Campaigns.SumUpdate | src/system/campaign.py:41-42 | adding `x` to one spend bucket adds `x` to the buckets' sum |
| Campaigns.SumNatUpdate | src/system/campaign.py:43 | adding to one win bucket adds as much to the wins' sum |
| Campaigns.EntryIndex | src/system/campaign.py:50-56 | a minute's bucket is below the number of buckets, and the bucket's first minute is not after it |
| Campaigns.EntryIndexFacts | src/system/campaign.py:50-56 | with the minutes per bucket derived from the day, a minute lies inside its bucket |
| Campaigns.AddAt | src/system/campaign.py:41 | `+=` at one index changes only that entry, by the amount added |
| Campaigns.AddCountAt | src/system/campaign.py:43 | `+=` at one index changes only that counter, by the amount added |
| Campaigns.AddAtTwice | src/system/campaign.py:41 | two payments into the same bucket are one payment of their sum |
| Campaigns.AddCountAtTwice | src/system/campaign.py:43 | two wins counted into the same bucket are one count of their sum |
| Campaigns.ChargeTwice | src/system/campaign.py:40-43 | charges to the same buckets accumulate |
| Campaigns.ChargeNothing | src/system/campaign.py:40-43 | charging nothing changes nothing |
| Campaigns.ChargeKeepsTotal | src/system/campaign.py:40-43 | a charge keeps `total_spent_today` equal to the sum of the spend buckets, adds the wins to the win count, and keeps the bucket counts |
| Campaigns.RolloverKeepsTotals | src/system/campaign.py:35-38 | a rollover appends exactly today's buckets to each history, keeps the earlier days, and keeps history plus today constant for spend and for wins |
| Campaigns.RolloverDays | src/system/campaign.py:28-34 | the first rollover sets the start day and later ones keep it; the end day is set exactly when the last day to run is over |
| Campaigns.CampaignStatistics.constructor | src/system/campaign.py:16-25 | empty histories, zero buckets of the configured sizes, the run period, no start or end day |
| Campaigns.CampaignStatistics.Update | src/system/campaign.py:40-43 | the payment goes into the minute's spend bucket and the total, one win into the minute's win bucket; the statistics stay well formed |
| Campaigns.CampaignStatistics.PrepareForNewDay | src/system/campaign.py:27-38 | the new state is the rollover of the old one at the current day (see `RolloverKeepsTotals`, `RolloverDays`) |
| Campaigns.CampaignStatistics.ResetTodayStats | src/system/campaign.py:45-48 | fresh zero buckets and a zero total |
| Campaigns.ConstructionError | src/system/campaign.py:63-72 | the constructor succeeds exactly when a set maximal bid is at least the minimal bid, the run period is not 0 and the daily budget is at least the minimal bid; an invalid maximal bid is reported first |
| Campaigns.BidFor | src/system/campaign.py:83-87 | a bid is for the campaign, capped at a set maximal bid, and at least the minimal bid; no bid exactly when the capped amount is below the minimal bid |
| Campaigns.Campaign.constructor | src/system/campaign.py:60-77 | daily budget times run period is the total budget; fresh statistics for the run period; empty cache |
| Campaigns.Campaign.Bid | src/system/campaign.py:79-87 | the last amount of the (refilled when empty) cache is removed from it and turned into the bid `BidFor` describes |
| Campaigns.Campaign.Pay | src/system/campaign.py:89-90 | the payment is charged to the statistics' buckets of the minute |
| Campaigns.Campaign.IsRelevantAuction | src/system/campaign.py:124-129 | true exactly when every targeted feature's user value is among the wanted ones; always true without targeting |
| Campaigns.MatchesFewerFeatures | src/system/campaign.py:124-129 | a campaign without targeting matches every user, and dropping targeted features never turns a matching user away |
| Campaigns.CpmDailyHistory | src/system/campaign.py:110-113 | one entry per completed day; None exactly for a day without wins, else CPM times wins is 1000 times spend |
| Campaigns.BudgetUtilizationDailyHistory | src/system/campaign.py:115-117 | one entry per completed day; utilisation times daily budget is the day's spend |
| Campaigns.OverspendValueDailyHistory | src/system/campaign.py:119-122 | one entry per completed day; never negative; positive exactly when the day's spend exceeds the budget, and then budget plus overspend is the spend |
| TrackedCampaigns.InitialPs | src/system/budget_pacing/mystique/mystique_tracked_campaign.py:9-30 | a new campaign's signal is in [0, 1] and positive: the maximum for a daily budget above the high-initialisation threshold, the bootstrap value otherwise |
| TrackedCampaigns.PushIfNonEmpty | src/system/budget_pacing/mystique/mystique_tracked_campaign.py:39-46 | a non-empty day is appended as one more history entry after the unchanged earlier ones; an empty day leaves the history alone |
| TrackedCampaigns.AverageOfAccumulated | src/system/budget_pacing/mystique/mystique_tracked_campaign.py:84-88 | an accumulator of signals in [0, 1] averages to a value in [0, 1], which is never the invalid sentinel |
| TrackedCampaigns.TrackedCampaign.constructor | src/system/budget_pacing/mystique/mystique_tracked_campaign.py:7-22 | all three signals start at the initial signal; every history, day array and curve is empty; the accumulators are 0 |
| TrackedCampaigns.TrackedCampaign.AvgDailyPsBelowThreshold | src/system/budget_pacing/mystique/mystique_tracked_campaign.py:84-88 | the sentinel exactly when no signal was accumulated, else a value in [0, 1] |
| TrackedCampaigns.TrackedCampaign.SpendInLastTimeInterval | src/system/budget_pacing/mystique/mystique_tracked_campaign.py:78-79 | the latest spend is what the day's total adds to the earlier iterations' spend |
| TrackedCampaigns.TrackedCampaign.TodaySpend | src/system/budget_pacing/mystique/mystique_tracked_campaign.py:81-82 | 0 before the first report of the day; not negative while no report is |
| TrackedCampaigns.TrackedCampaign.AvgHourlyPs | src/system/budget_pacing/mystique/mystique_tracked_campaign.py:93-94 | one average per started hour of today's signals, each in [0, 1] |
| TrackedCampaigns.TrackedCampaign.NewDayInit | src/system/budget_pacing/mystique/mystique_tracked_campaign.py:24-50 | the signal is the maximum for a new high-budget campaign and otherwise kept; the last positive signal becomes the day's below-threshold average when there is one; the previous signal is the last positive one capped at the maximum; non-empty day arrays move to history; accumulators restart; curves untouched |
| TrackedCampaigns.TrackedCampaign.RestartPacingSignals | src/system/budget_pacing/mystique/mystique_tracked_campaign.py:25-36 | the signal half of the rollover, with every other field unchanged |
| TrackedCampaigns.TrackedCampaign.ArchiveDay | src/system/budget_pacing/mystique/mystique_tracked_campaign.py:38-50 | the history half of the rollover, with the signals and curves unchanged |
| TrackedCampaigns.TrackedCampaign.UpdateSpend | src/system/budget_pacing/mystique/mystique_tracked_campaign.py:52-53 | the spend is appended to today's spend and nothing else changes |
| TrackedCampaigns.TrackedCampaign.UpdatePacingSignal | src/system/budget_pacing/mystique/mystique_tracked_campaign.py:55-66 | the old signal becomes the previous one (and the last positive one when positive); the new signal is stored and appended; it enters the accumulator exactly when today's spend is below 95% of the daily budget |
| TrackedCampaigns.TrackedCampaign.UpdateTargetSlopeCurve | src/system/budget_pacing/mystique/mystique_tracked_campaign.py:68-71 | the new slope replaces the current one, which joins the history when non-empty |
| TrackedCampaigns.TrackedCampaign.UpdateTargetSpendCurve | src/system/budget_pacing/mystique/mystique_tracked_campaign.py:73-76 | the new spend curve replaces the current one, which joins the history when non-empty |
| TargetSlope.TargetSpendCurve | src/system/budget_pacing/mystique/target_slope.py:60-66 | one cumulative value per hour of the day (its content is stated by `CurveIsRunningSum`) |
| TargetSlope.UnitSlope | src/system/budget_pacing/mystique/target_slope.py:42 | the linear strategy's slope: 24 ones |
| TargetSlope.TargetSpendArray | src/system/budget_pacing/mystique/target_slope.py:59-66 | the running-sum loop builds exactly the cumulative curve |
| TargetSlope.CurveIsRunningSum | src/system/budget_pacing/mystique/target_slope.py:62-65 | each hour's curve value is the previous one plus the hour's slope over 24, the first one the first slope over 24 |
| TargetSlope.CurveMonotone | src/system/budget_pacing/mystique/target_slope.py:62-65 | with non-negative slopes the curve never decreases |
| TargetSlope.SumOfOnes | src/system/budget_pacing/mystique/target_slope.py:42 | n ones sum to n |
| TargetSlope.UnitCurve | src/system/budget_pacing/mystique/target_slope.py:42-43 | the unit slope's curve is the straight line (i+1)/24 |
| TargetSlope.InitializeSlope | src/system/budget_pacing/mystique/target_slope.py:41-45 | the campaign receives the unit slope and its curve; any previous curves move into history; the signals and day arrays are untouched |
| TargetSlope.UpdateSlopeLinear | src/system/budget_pacing/mystique/target_slope.py:47-51 | the current curves are set again, so both stay and each history gains a copy of them |
| TargetSlope.LinearTarget | src/system/budget_pacing/mystique/target_slope.py:53-57 | slope 1 and a spend target in (0, 1] that is (minute + 1)/1440 of the day |
| TargetSlope.NonLinearTarget | src/system/budget_pacing/mystique/target_slope.py:104-122 | the current hour's slope; a spend target between the previous hour's curve value (0 in the first hour) and the current one, reaching the latter in the hour's last minute |
| TargetSlope.InterpolationBetween | src/system/budget_pacing/mystique/target_slope.py:118-120 | the interpolation stays between its end points and reaches the second after 60 minutes |
| TargetSlope.InterpolationFromZero | src/system/budget_pacing/mystique/target_slope.py:115-116 | the first hour's interpolation from 0, with the same bounds |
| TargetSlope.NonLinearAgreesWithLinearOnUnitSlope | src/system/budget_pacing/mystique/target_slope.py:104-122 | on the unit slope and its curve the nonlinear target equals the linear one at every minute |
| TargetSlope.UpdateFactor | src/system/budget_pacing/mystique/target_slope.py:82-88 | a factor in (0, 2]; 1 when either average is below epsilon; otherwise 2 when the daily average is at least twice the hourly one, and else exactly the daily-to-hourly ratio |
| TargetSlope.UpdateFactorAntitone | src/system/budget_pacing/mystique/target_slope.py:82-88 | with both averages above epsilon, a larger hourly average never gets a larger factor |
| TargetSlope.RatioFacts | src/system/budget_pacing/mystique/target_slope.py:82-83 | the ratio of two positive averages is positive and recovers the dividend |
| TargetSlope.ClampSlope | src/system/budget_pacing/mystique/target_slope.py:91-92 | the result is in [0.1, 12] and an in-range slope is kept |
| TargetSlope.UpdatedSlopes | src/system/budget_pacing/mystique/target_slope.py:81-92 | one updated slope per hour, each in [0.1, 12] |
| TargetSlope.UpdatedSlope | src/system/budget_pacing/mystique/target_slope.py:85-92 | one hour's updated slope is in [0.1, 12] and an in-range slope is kept when either average is tiny |
| TargetSlope.Smoothed | src/system/budget_pacing/mystique/target_slope.py:95-100 | one smoothed value per slope |
| TargetSlope.SmoothingKeepsBounds | src/system/budget_pacing/mystique/target_slope.py:97-100 | the smoothing keeps every slope within bounds all slopes respected |
| TargetSlope.SmoothingFixesConstant | src/system/budget_pacing/mystique/target_slope.py:97-100 | a day of equal slopes is left unchanged by the smoothing |
| TargetSlope.UpdateSlopeNonLinear | src/system/budget_pacing/mystique/target_slope.py:76-102 | succeeds exactly when there is a non-zero hourly average for every slope; then the slope becomes the smoothed updated slope and the old one moves to history; the spend curve, signals and day arrays are untouched |
| TargetSlope.UpdateSlopes | src/system/budget_pacing/mystique/target_slope.py:81-92 | the update loop computes exactly `UpdatedSlopes` |
| TargetSlope.SmoothSlopes | src/system/budget_pacing/mystique/target_slope.py:95-100 | the smoothing loop, reading the unsmoothed copy, computes exactly `Smoothed` |
| TargetSlope.RelearnedSlopeInRange | src/system/budget_pacing/mystique/target_slope.py:76-102 | the relearned slope lies in [0.1, 12] |
| Mystique.IsCloseToZero | src/system/budget_pacing/mystique/mystique.py:152-156 | `math.isclose(x, 0, abs_tol=t)` holds exactly when `abs(x) <= t` |
| Mystique.IsCloseSymmetric | src/system/budget_pacing/mystique/mystique.py:63 | `math.isclose` does not depend on the order of its arguments, and holds between a value and itself |
| Mystique.BudgetDepletedBounds | src/system/budget_pacing/mystique/mystique.py:63 | against a positive budget the depletion test holds for every spend of at least the budget and for no spend below the budget less its relative tolerance |
| Mystique.PercentBudgetDepletedToday | src/system/budget_pacing/mystique/mystique.py:111-113 | the share times the budget is today's spend; it is non-negative exactly for a non-negative spend and at least 1 exactly when the budget is spent |
| Mystique.SpendError | src/system/budget_pacing/mystique/mystique.py:115-117 | positive exactly when more of the budget is spent than the target, zero exactly on target |
| Mystique.SpendErrorIntensity | src/system/budget_pacing/mystique/mystique.py:119-121 | the error's magnitude: non-negative, equal to the error or its negation, zero exactly for no error |
| Mystique.GradientError | src/system/budget_pacing/mystique/mystique.py:137-139 | positive exactly when the latest spend derivative exceeds the target slope, zero exactly when equal |
| Mystique.Sign | src/system/budget_pacing/mystique/mystique.py:173-176 | `np.sign`: 1, 0 or -1, positive and negative exactly for positive and negative arguments |
| Mystique.SpendErrorCorrection | src/system/budget_pacing/mystique/mystique.py:123-126 | in [0, 0.025]; saturates at 0.025 from an error of 0.25, else a tenth of the error |
| Mystique.SpendDerivativeInLatestTimeInterval | src/system/budget_pacing/mystique/mystique.py:128-135 | 0 for a zero last spend; otherwise derivative times budget is last spend times 1440 |
| Mystique.GradientErrorIntensity | src/system/budget_pacing/mystique/mystique.py:141-143 | in [0, 1], the error's magnitude when that is at most 1 |
| Mystique.GradientErrorCorrection | src/system/budget_pacing/mystique/mystique.py:145-148 | between 0.01 and 0.025/1.5 |
| Mystique.EstimatedIntervalsUntilTargetIsHit | src/system/budget_pacing/mystique/mystique.py:150-158 | 1441 for a gradient error within 1e-9 of zero; otherwise the estimate times the gradient error is -1440 times the spend error |
| Mystique.PacingSignalCorrectionWeights | src/system/budget_pacing/mystique/mystique.py:160-167 | the weights sum to 1; (0.5, 0.5) for a negative estimate, else the spend weight is the capped proportional weight |
| Mystique.NewPacingSignal | src/system/budget_pacing/mystique/mystique.py:169-183 | the corrected signal is in [0.0001, 1] |
| Mystique.ClampPs | src/system/budget_pacing/mystique/mystique.py:180-183 | the result is in [0.0001, 1] and an in-range signal is kept |
| Mystique.ClampNoFurther | src/system/budget_pacing/mystique/mystique.py:180-183 | clamping never moves a signal further from a previous signal in [0, 1] than it was, or than 0.0001 |
| Mystique.WeightedCorrectionBound | src/system/budget_pacing/mystique/mystique.py:178-179 | a weighted, signed correction is at most the weight times 0.025 in magnitude |
| Mystique.CorrectionStepBounded | src/system/budget_pacing/mystique/mystique.py:169-183 | with weights summing to 1, one step moves the signal by at most 0.025 |
| Mystique.WeightedStepBound | src/system/budget_pacing/mystique/mystique.py:178-183 | the same bound, stated on the corrections and signs |
| Mystique.ClampedStepBound | src/system/budget_pacing/mystique/mystique.py:178-183 | the same bound, stated on the two weighted terms |
| Mystique.CorrectionDirection | src/system/budget_pacing/mystique/mystique.py:169-183 | overspending and spending too fast never raise the signal; underspending and spending too slowly never lower it |
| Mystique.WeightedStepDirection | src/system/budget_pacing/mystique/mystique.py:178-183 | the same directions, stated on the signs |
| Mystique.NewPacingSignalSpec | src/system/budget_pacing/mystique/mystique.py:53-86 | the next signal is in [0, 1]; in the last two minutes with a valid below-threshold average it is that average capped at 1; with the budget depleted it is the current signal; a runaway spend gives 0; otherwise it is at least 0.0001 and within 0.025 of the last positive signal |
| Mystique.CalculateNewPacingSignal | src/system/budget_pacing/mystique/mystique.py:53-86 | the new signal is in [0, 1] (each case is stated by `NewPacingSignalSpec`) |
| Mystique.ReportKeepsRecordValid | src/system/budget_pacing/mystique/mystique.py:30-40 | a report keeps every signal in [0, 1], the below-threshold accumulator a sum of such signals, an archived day non-empty and the curves one entry per hour; the nonlinear relearning keeps the slope in [0.1, 12] |
| Mystique.ReportArchivesDay | src/system/budget_pacing/mystique/mystique.py:30-40 | before the day's last minute a report only appends the spend and the signal; in the last minute a completed report archives the whole day and restarts the day's arrays and accumulators, and a failed one leaves the day unarchived |
| Mystique.EveryCampaignDayClassifiedOnce | src/system/budget_pacing/mystique/mystique.py:100-105 | every campaign alive on a day is counted once, either budget constrained or not |
| Mystique.UpdateSpendAndPacingSignal | src/system/budget_pacing/mystique/mystique.py:33-51 | the spend is recorded first, and the signal decided from the updated record is stored and appended |
| Mystique.EndDay | src/system/budget_pacing/mystique/mystique.py:36-40 | the day's arrays move into the histories, or, when the nonlinear relearning raises, nothing is rolled; the linear strategy never raises; the signal is untouched |
| Mystique.MystiquePacingSystem.constructor | src/system/budget_pacing/mystique/mystique.py:16-21 | no campaigns and the chosen strategy |
| Mystique.MystiquePacingSystem.AddCampaign | src/system/budget_pacing/mystique/mystique.py:23-28 | a new id is registered after the earlier ones with a fresh record, its initial signal, the unit slope and its curve; a known id changes nothing |
| Mystique.MystiquePacingSystem.GetPacingSignal | src/system/budget_pacing/mystique/mystique.py:42-47 | the stored signal for a tracked id, the default 0 otherwise |
| Mystique.MystiquePacingSystem.PacingSignalInUnit | src/system/budget_pacing/mystique/mystique.py:46 | the assertion on the returned signal never fails: it is in [0, 1] |
| Mystique.MystiquePacingSystem.EndIteration | src/system/budget_pacing/mystique/mystique.py:30-40 | an untracked id changes nothing; a tracked record is updated exactly as `ReportedFrom` describes (spend recorded, signal decided and stored, day rolled in the last minute); only the last minute can raise, and only under the nonlinear strategy |
| Mystique.MystiquePacingSystem.EndIterations | src/system/budget_pacing/mystique/mystique.py:30-40 | each campaign of the turn is reported to in order, as `EndIteration` describes; a raise stops the turn after the campaign that raised and the later records stay unchanged |
| Mystique.MystiquePacingSystem.Records | src/system/budget_pacing/mystique/mystique.py:100-101 | one pacing-signal history per tracked campaign, in registration order, every completed day non-empty |
| Mystique.MystiquePacingSystem.GlobalPacingStatistics | src/system/budget_pacing/mystique/mystique.py:97-109 | one count per simulated day: the constrained count is the number of campaigns whose signals averaged below 0.95 that day, the other count the rest of the campaigns alive that day |
| Mystique.MystiquePacingSystem.CountCampaignDays | src/system/budget_pacing/mystique/mystique.py:101-105 | adding one campaign's days to the per-day counts yields the counts of the larger set of campaigns |
| Serving.RoundHalfEven | src/system/serving_system.py:230 | Python's `round`: an integer within 0.5 of the argument, the even one at a tie |
| Serving.RoundHalfEvenUnique | src/system/serving_system.py:230 | any integer with those two properties is the rounded value |
| Serving.NumberOfUntrackedBids | src/system/serving_system.py:228-230 | the untracked-bid count is the factor times the relevant campaigns rounded to within 0.5, and never negative for a non-negative factor |
| Serving.DaysOfCampaign | src/system/serving_system.py:194-197 | what the aggregations read of a campaign is well formed and carries its daily budget |
| Serving.CampaignDaysIn | src/system/serving_system.py:232-233 | one well-formed entry per listed campaign |
| Serving.TrackedBid | src/system/serving_system.py:40-55 | a running campaign offers a bid exactly when the auction is relevant, it is under its daily budget, it drew a bid and the paced amount is positive; the bid stays the campaign's own |
| Serving.PacedOfferInRange | src/system/serving_system.py:51-55 | with a signal in [0, 1] an offered bid is positive and no larger than the drawn one, and a relevant campaign under budget with a drawn bid offers it exactly when there is no signal or a positive one |
| Serving.Present | src/system/serving_system.py:54-55 | no more bids than offers |
| Serving.PresentFromOffers | src/system/serving_system.py:54-55 | every bid passed to the auction is one of the campaigns' offers |
| Serving.PresentSnoc | src/system/serving_system.py:54-55 | one more offer adds its bid, when present, at the end |
| Serving.CountTrue | src/system/serving_system.py:44 | the relevant-campaign count is at most the number of campaigns |
| Serving.CountTrueSnoc | src/system/serving_system.py:44 | one more relevant campaign adds one to the count |
| Serving.Relevance | src/system/serving_system.py:40-44 | one flag per running campaign in registration order, true exactly when the auction matches its targeting |
| Serving.FewerBidsThanRelevant | src/system/serving_system.py:37-55 | there are never more tracked bids than campaigns the auction is relevant to |
| Serving.InOrder | src/system/serving_system.py:40 | the campaigns in the dictionary's order |
| Serving.Caches | src/system/serving_system.py:48 | the bid caches of the campaigns, in order |
| Serving.SpentToday | src/system/serving_system.py:46 | what each campaign has spent today, in order |
| Serving.OfferedEachPrefix | src/system/serving_system.py:40-55 | the record of the first turns of `get_bids` does not depend on later entries |
| Serving.OfferedEachSnoc | src/system/serving_system.py:40-55 | one more campaign's turn extends the record |
| Serving.OfferedEachAt | src/system/serving_system.py:40-55 | the record, read campaign by campaign |
| Serving.InOrderDistinct | src/system/serving_system.py:13-40 | the running campaigns listed in order are distinct objects, and distinct from the retired ones |
| Serving.RegisterKeepsRegistry | src/system/serving_system.py:30-32 | adding a well-formed campaign under a new id keeps the registry well formed |
| Serving.AddKeepsOrder | src/system/serving_system.py:32 | inserting a new key appends it to the dictionary's order |
| Serving.OrderSize | src/system/serving_system.py:13 | a dictionary's order is as long as the dictionary |
| Serving.Without | src/system/serving_system.py:105 | the order after `pop(id)`: exactly the other keys |
| Serving.WithoutKeepsOrder | src/system/serving_system.py:105 | after `pop(id)` the remaining keys keep their order, once each |
| Serving.WithoutDistinct | src/system/serving_system.py:105 | after `pop(id)` no key is listed twice |
| Serving.RetireKeepsRegistry | src/system/serving_system.py:101-105 | moving a campaign without days left from running to retired keeps the registry well formed |
| Serving.MoveKeepsKeys | src/system/serving_system.py:103-105 | the move keeps the union of the two dictionaries' keys |
| Serving.PaidToAppend | src/system/serving_system.py:59-63 | charging two runs of winners charges each campaign the sum of both |
| Serving.PaidToOnlyWhenWon | src/system/serving_system.py:59-63 | with non-negative payments a campaign pays a non-negative total, and nothing when it won nothing |
| Serving.ChargedStep | src/system/serving_system.py:60-63 | one more winner charges only the campaign it names, once more |
| Serving.PendingAfterSnoc | src/system/serving_system.py:65-68 | recording one more winner is one more step |
| Serving.PendingAfterAddsPayments | src/system/serving_system.py:65-68 | with a pacing controller, the pending spend of a running campaign grows by exactly what it paid and an id gains an entry only when it is running and won; without one nothing is recorded |
| Serving.PopAllRemoves | src/system/serving_system.py:82-84 | popping a list of ids removes exactly those ids |
| Serving.PopOrderRemovesKeys | src/system/serving_system.py:82-84 | popping every running id removes exactly the running campaigns' keys |
| Serving.EndDayMembersStep | src/system/serving_system.py:98-105 | one more campaign's end of day keeps the account of which campaigns run and which are retired |
| Serving.ServingSystem.constructor | src/system/serving_system.py:16-25 | empty registries and no pending spend |
| Serving.ServingSystem.AddCampaign | src/system/serving_system.py:27-34 | a missing campaign and an id already running or retired are refused and change nothing; otherwise the campaign runs under its id after the earlier ones and the pacing controller tracks it with its daily budget |
| Serving.ServingSystem.AddNew | src/system/serving_system.py:32-34 | the accepted case of `add_campaign` |
| Serving.ServingSystem.Register | src/system/serving_system.py:32 | the campaign is entered into the running registry, which stays well formed |
| Serving.ServingSystem.ForwardToPacing | src/system/serving_system.py:33-34 | the controller tracks the new id, with the campaign's daily budget |
| Serving.ServingSystem.Signal | src/system/serving_system.py:51-52 | a signal exactly when there is a pacing controller |
| Serving.ServingSystem.SignalInUnit | src/system/serving_system.py:51-53 | every signal lies in [0, 1] |
| Serving.ServingSystem.Offer | src/system/serving_system.py:41-55 | one campaign's turn: relevance is the targeting match, and the offer and the new cache are as `TrackedBid` and the campaign's draw describe |
| Serving.ServingSystem.GetBids | src/system/serving_system.py:36-55 | one offer per running campaign in registration order, the bids being the present offers; the relevant count is the number of matching campaigns; retired campaigns' caches are untouched |
| Serving.ServingSystem.OfferTracked | src/system/serving_system.py:40-55 | the same, over the running registry |
| Serving.ServingSystem.OfferAll | src/system/serving_system.py:40-55 | the same, over a list of distinct campaigns |
| Serving.ServingSystem.OfferEach | src/system/serving_system.py:40-55 | the loop records every turn against the caches, spend and signals it started from |
| Serving.ServingSystem.TakeTurn | src/system/serving_system.py:41-55 | one turn extends the bids, the relevant count and the record |
| Serving.ServingSystem.UpdateWinners | src/system/serving_system.py:59-68 | every running campaign is charged, in the buckets of the current minute, exactly what it paid and won; the pending spend is `PendingAfter` of the winners; retired campaigns and outside bidders change nothing |
| Serving.ServingSystem.PayAll | src/system/serving_system.py:60-68 | the loop keeps every running campaign charged with the winners so far |
| Serving.ServingSystem.PayNext | src/system/serving_system.py:60-68 | one turn of that loop |
| Serving.ServingSystem.PayWinner | src/system/serving_system.py:61-68 | one winner: only the campaign it names is charged; the pending spend takes one step |
| Serving.ServingSystem.AllCampaignDays | src/system/serving_system.py:232-233 | one well-formed entry per running and retired campaign |
| Serving.ServingSystem.ChargeRunning | src/system/serving_system.py:63 | the running campaign pays for one won auction in the minute's buckets |
| Serving.ServingSystem.RecordPending | src/system/serving_system.py:65-68 | the payment joins the pending spend; no statistics change |
| Serving.ServingSystem.EndOfMinuteCampaignUpdates | src/system/serving_system.py:87-95 | a running campaign under its daily budget counts one more minute alive, except in the last minute of the day; retired campaigns are untouched |
| Serving.ServingSystem.CountAllMinutes | src/system/serving_system.py:89-95 | the loop over the running campaigns in registration order |
| Serving.ServingSystem.CountMinuteAlive | src/system/serving_system.py:90-95 | one campaign's part of the end-of-minute update |
| Serving.ServingSystem.IncrementMinutesAlive | src/system/serving_system.py:95 | one more minute alive |
| Serving.EndOfMinuteAsWritten | src/system/serving_system.py:87-95 | the end-of-minute loop as written completes exactly when no running campaign is alive this minute (otherwise the increment raises) |
| Serving.EndOfMinuteAsWrittenRaises | src/system/serving_system.py:95 | one running campaign with nothing spent and a positive budget at minute 0 makes the loop as written raise |
| Serving.ServingSystem.RollOverStats | src/system/serving_system.py:99 | the campaign's statistics are rolled over to the day |
| Serving.ServingSystem.Retire | src/system/serving_system.py:101-105 | the campaign moves from running to retired, after the earlier retired ones; the others keep their order |
| Serving.ServingSystem.MoveToRetired | src/system/serving_system.py:103-105 | the registry part of the move |
| Serving.ServingSystem.EndIteration | src/system/serving_system.py:70-77 | no campaign is lost and retired ones are untouched; before the last minute nobody changes between running and retired and each running campaign counts a minute alive exactly when under budget; with a controller and no raise each pending spend is popped and reported as `AllReported` describes; after the last minute each running campaign is rolled over and retired exactly when its run period is used up |
| Serving.ServingSystem.MinuteUpdates | src/system/serving_system.py:71-73 | the end-of-minute count of every running campaign, then the report of every pending spend to the controller; retired campaigns are untouched |
| Serving.ServingSystem.ReportPending | src/system/serving_system.py:79-85 | with a controller and no raise, every running campaign's pending spend is popped and reported as `AllReported` describes, and no statistics change |
| Serving.ServingSystem.ReportPendingById | src/system/serving_system.py:79-85 | the same report, stated over the controller records by id |
| Serving.ServingSystem.EndOfDayKeepingPacing | src/system/serving_system.py:97-105 | the end-of-day rollover and retirement of `EndOfDayCampaignUpdates`, with the controller's records left unchanged |
| Serving.ServingSystem.EndOfDayCampaignUpdates | src/system/serving_system.py:97-105 | succeeds exactly when every running campaign had a day left; then each running campaign's statistics are rolled over, it stays running exactly when it had more than one day left and is retired exactly when it had one; retired campaigns are untouched and none is lost |
| Serving.ServingSystem.EndDayAll | src/system/serving_system.py:98-105 | the loop: on success every running campaign was rolled over and sorted; otherwise it names a campaign without days left |
| Serving.ServingSystem.EndDayStep | src/system/serving_system.py:99-105 | one campaign's turn, stated against the state the loop started from |
| Serving.ServingSystem.EndDayViews | src/system/serving_system.py:99-105 | the turn's effect on every campaign's statistics |
| Serving.ServingSystem.EndDayFramed | src/system/serving_system.py:99-105 | the turn changes only that campaign's statistics |
| Serving.ServingSystem.EndDayOf | src/system/serving_system.py:99-105 | the campaign is rolled over; the assertion holds exactly when it had a day left; with one day left it moves to the retired campaigns, otherwise the registry is unchanged |
| Serving.ServingSystem.UpdatePacingSystem | src/system/serving_system.py:79-85 | without a controller nothing happens; with one, every running campaign's pending spend is popped (0 when absent) and reported, each controller record changing as `ReportedFrom` describes, and only the nonlinear strategy can raise |
| Serving.ServingSystem.PopRunning | src/system/serving_system.py:84 | the running campaigns' pending entries are removed |
| Serving.ServingSystem.ReportAll | src/system/serving_system.py:82-85 | pop, then report each running campaign's spend in registration order |
| Serving.ServingSystem.Report | src/system/serving_system.py:85 | the controller's `end_iteration` for each running campaign in turn |
| DailyTotals.DayAmount | src/system/serving_system.py:195-225 | a campaign day's spend is the sum of its buckets; its overspend is never negative and positive exactly when the spend exceeds the daily budget |
| DailyTotals.DayCount | src/system/serving_system.py:204-216 | a campaign day's wins are the sum of its buckets; its over-budget count is 1 exactly when it overspent, and at most 1 |
| DailyTotals.TotalOnStep | src/system/serving_system.py:193-197 | one more campaign adds its amount on that day to the day's total |
| DailyTotals.CountTotalOnStep | src/system/serving_system.py:202-206 | one more campaign adds its count on that day to the day's count |
| DailyTotals.PerDayTotals | src/system/serving_system.py:191-226 | one total per simulated day, each the sum over all campaigns of their amount on that day, each campaign's `k`-th completed day landing on day `day_started + k` |
| DailyTotals.PerDayCounts | src/system/serving_system.py:200-217 | one count per simulated day, each the sum over all campaigns of their count on that day |
| DailyTotals.DaysBefore | src/system/serving_system.py:195 | a campaign has at most as many days before a cut as it has days |
| DailyTotals.SumOfTotals | src/system/serving_system.py:166-167 | the sum of the per-day totals is the sum of the campaigns' amounts up to the last day |
| DailyTotals.TotalsSplit | src/system/serving_system.py:193-197 | those sums split campaign by campaign |
| DailyTotals.WindowIsCampaignAmount | src/system/serving_system.py:195-197 | one campaign's share of them is its amount over its own days |
| DailyTotals.TotalsAreGrandTotal | src/system/serving_system.py:193-197 | once every campaign day falls within the window, that is every campaign's whole amount |
| DailyTotals.PerDayTotalsConserve | src/system/serving_system.py:166-198 | the per-day totals sum to every campaign's whole spend (or overspend): nothing is lost or counted twice |
| DailyTotals.SumOfCounts | src/system/serving_system.py:168 | the sum of the per-day counts is the sum of the campaigns' counts up to the last day |
| DailyTotals.CountsSplit | src/system/serving_system.py:202-206 | those sums split campaign by campaign |
| DailyTotals.WindowIsCampaignCount | src/system/serving_system.py:204-206 | one campaign's share of them is its count over its own days |
| DailyTotals.CountsAreGrandCount | src/system/serving_system.py:202-206 | once every campaign day falls within the window, that is every campaign's whole count |
| DailyTotals.PerDayCountsConserve | src/system/serving_system.py:168-207 | the per-day win counts sum to every campaign's wins |
| DailyTotals.CpmPerDay | src/system/serving_system.py:185-189 | one entry per day; None exactly for a day without wins, else CPM times wins is 1000 times spend |
| DailyTotals.OverallCpm | src/system/serving_system.py:173-174 | None (where Python raises ZeroDivisionError) exactly when nothing was won, else CPM times wins is 1000 times spend |
| DailyTotals.OverallCpmOfAllCampaigns | src/system/serving_system.py:173-207 | the overall CPM from the per-day totals is 1000 times every campaign's spend over every campaign's wins |

## Left out

- Untracked bids (`_generate_untracked_bids`, `src/system/serving_system.py:107-113`): the model keeps only their number (`Serving.NumberOfUntrackedBids`). The random sampling of their amounts is not modelled, so `GetBids` returns the tracked campaigns' bids only.
- Random draws: a campaign refills its bid cache from a probability distribution. The model takes the refill as the `refill`/`refills` parameter and does not model the distribution.
- CSV and dictionary formatting is not modelled. This covers `get_statistics_per_campaign_csv_rows`, `get_global_statistics_csv_rows` (`src/system/serving_system.py:115-171`) and `get_pacing_statistics` (`src/system/budget_pacing/mystique/mystique.py:88-95`). The values those rows hold are modelled.
- `_calculate_total_minutes_alive_per_day` and the `minutes_alive` CSV field are not modelled. They read `Campaign.minutes_alive_history()`, which `src/system/campaign.py` does not define.
- The configuration values `factor_untracked_bids`, `num_spend_entries_per_day`, `num_win_entries_per_day` and `bid_sampling_batch_size` are not defined in `src/configuration.py`. The model takes them as parameters.
- Day-end slope update: `mystique.py:38` calls `update_target_slope_and_spend`, which no strategy in `target_slope.py` defines. The model calls each strategy's `update_slope` instead: `UpdateSlopeLinear` or `UpdateSlopeNonLinear`.
- Nonlinear spend curve: the nonlinear strategy's `update_slope` does not recompute the target spend curve from the new slope, and the model does not recompute it either.
- Clocks: the source's clocks are classes with class-level (global) state. The model uses one `Clock` object that callers pass in, or a minute/day number.
- Floats are modelled as reals, so rounding of floating-point sums and quotients is not modelled.
- Error paths: where the source raises halfway through an update, the model reports the failure through an `ok` flag or `Option`. It does not describe the partially updated state the source leaves behind.
- `Serving.ServingSystem.UpdatePacingSystem`: states that pending spend entries are popped and reported to the controller. It does not state what happens to the controller records of campaigns retired the same day.
- `DailyTotals.PerDayTotals`: requires every campaign day to fall within the window (`FitsIn`). The source raises IndexError when a day falls outside it.
- `DailyTotals.PerDayCounts`: requires `FitsIn` for the same reason as `PerDayTotals`.
- `Mystique.MystiquePacingSystem.GlobalPacingStatistics`: requires every campaign's days to lie within `clock.Days()`. The source raises IndexError when one does not.
- `Campaigns.Campaign.constructor`: requires `ConstructionError(...) == None`. The raising cases are modelled by the function `ConstructionError`.
- `TrackedCampaigns.TrackedCampaign.constructor`: requires a positive daily budget. Every campaign that passes construction has one.
- `TargetSlope.UpdateFactor`: requires a non-zero hourly average. The source divides by it before it compares against the epsilon.
- Start day of a tracked campaign: `mystique.py:103` reads `day_started` on a tracked campaign, but `MystiqueTrackedCampaign` never sets it. The model passes it to the constructor as the day the campaign is registered.
- `MystiqueUtils.LastItems`: requires every tuple to be non-empty. Python raises IndexError on an empty tuple; every list the controller passes holds pairs.
- `MystiqueUtils.SumOfLastTupleItem` and `MystiqueUtils.SumOfLastTupleItemFromModuloLocation`: require non-empty tuples, for the same reason as `LastItems`.
- `MystiqueUtils.Mean`: requires a non-empty chunk. Python raises ZeroDivisionError on an empty one, and `range(0, len, size)` never produces one.
- `TrackedCampaigns.TrackedCampaign.SpendInLastTimeInterval`: requires a non-empty day. Python raises IndexError on an empty `today_spend`; the controller reads it only right after appending the minute's spend.
- `Campaigns.Campaign.Bid`: requires a non-empty cache or a non-empty refill. With an empty refill the source's `self.bids_cache[-1]` raises IndexError; a refill of `bid_sampling_batch_size` draws is never empty.
- `Mystique.PercentBudgetDepletedToday`: requires a positive daily budget. Python would divide by zero, but every campaign that passes construction has a positive one.
- `Serving.ServingSystem.constructor`: takes no starting list of campaigns. The source's optional `tracked_campaigns` argument (`src/system/serving_system.py:16-24`) only calls `add_campaign` on each element, so the same state is reached by calling `AddCampaign` once per campaign after construction. A duplicate in that list makes the source raise with a half-built system, which the model does not describe.
- `Serving.ServingSystem.EndOfMinuteCampaignUpdates`: counts a campaign's minutes alive in a per-day counter that starts at 0 and is reset with the other daily statistics. The source increments `minutes_alive_today`, which `CampaignStatistics` never creates, so as written it raises AttributeError (see Findings).
- `Serving.ServingSystem.CountAllMinutes`: counts into the per-day counter described for `EndOfMinuteCampaignUpdates`, not into the attribute the source uses.
- `Serving.ServingSystem.CountMinuteAlive`: counts into the per-day counter described for `EndOfMinuteCampaignUpdates`, not into the attribute the source uses.
- `Serving.ServingSystem.IncrementMinutesAlive`: increments the per-day counter described for `EndOfMinuteCampaignUpdates`, not the attribute the source uses.
- Outside the model: `marketplace.py`, the daily cosine bid generator, plotting and the other non-core files. These are not part of this model.

## Findings

| source | as written | input that shows it | evidently intended | confidence | as-written member | corrected member |
|---|---|---|---|---|---|---|
| src/system/serving_system.py:95 | the end-of-minute loop increments `campaign.stats.minutes_alive_today`, an attribute `CampaignStatistics.__init__` (`src/system/campaign.py:16-25`) never creates, so the first alive campaign raises AttributeError | one running campaign with nothing spent today and a positive daily budget, at minute 0 | a per-day count of the minutes each campaign was alive, starting at 0 and reset each day | not executed; high | `Serving.EndOfMinuteAsWritten` | `Serving.ServingSystem.EndOfMinuteCampaignUpdates` |

/** Policy constants of the Mystique controller
    (src/system/budget_pacing/mystique/mystique_constants.py), with one day
    being 1440 iterations as src/configuration.py sets it. */
module MystiqueConstants {

  const NumIterationsPerDay: nat := 1440
  const NumHoursPerDay: nat := 24
  const NumIterationsPerHour: nat := 60
  const PercentOfDayInOneIteration: real := 1.0 / 1440.0

  /** Pacing signal reported for a campaign the controller does not track. */
  const DefaultPs: real := 0.0
  /** Lower clamp of a computed (non-edge-case) pacing signal. */
  const MinimalPs: real := 0.0001
  /** Pacing signal of a new campaign whose budget is not high. */
  const PsForInitialization: real := 0.0001
  const MaxPs: real := 1.0
  const MinPs: real := 0.0

  const ErrorCorrespondingToMaxCorrection: real := 0.25
  const MaxPsCorrection: real := 0.025
  const GradientErrorCorrespondingToMaxCorrection: real := 1.5
  const MinimalNonZeroPsCorrection: real := 0.01

  /** Daily budgets strictly above this start at the maximal pacing signal. */
  const MinDailyBudgetForHighInitialization: real := 10000.0
  /** Sentinel for "the target will never be hit": one more than a day. */
  const MaxInterval: real := 1441.0
  const MaxPsCorrectionWeight: real := 0.9
  const PsCorrectionWeightFactor: real := 0.2
  /** Share of the daily budget below which a pacing signal enters the daily average. */
  const BudgetSpendThreshold: real := 0.95
  /** Sentinel returned when no pacing signal entered the daily average. */
  const PsInvalidValue: real := -1.0
  const MinutesForEndDayEdgeCase: nat := 3

  /** Runaway-train thresholds, written inline in the controller. */
  const RunawayGradientError: real := 12.0
  const RunawayIntervals: real := 3600.0
}

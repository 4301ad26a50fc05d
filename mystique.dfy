/** The Mystique pacing controller (src/system/budget_pacing/mystique/mystique.py):
    once per minute it records each campaign's spend and turns it into a
    new pacing signal, a bid multiplier kept in [0, 1]. */
module Mystique {
  import opened MystiqueConstants
  import opened MystiqueUtils
  import opened TrackedCampaigns
  import opened TargetSlope
  import Clock

  function Abs(x: real): real { if x < 0.0 then -x else x }

  function Max(a: real, b: real): real { if a >= b then a else b }

  /** Default relative tolerance of Python's math.isclose. */
  const RelTol: real := 0.000000001

  /** Python's math.isclose over exact reals. */
  predicate IsClose(a: real, b: real, relTol: real, absTol: real)
  {
    Abs(a - b) <= Max(relTol * Max(Abs(a), Abs(b)), absTol)
  }

  /** Against zero the relative tolerance never helps: a value is close to
      0 exactly when it is within the absolute tolerance (so with the default
      absolute tolerance 0, exactly when it is 0). */
  lemma IsCloseToZero(x: real, absTol: real)
    requires 0.0 <= absTol
    ensures IsClose(x, 0.0, RelTol, absTol) <==> Abs(x) <= absTol
  {
    if Abs(x) > absTol {
      assert RelTol * Abs(x) < Abs(x);
    }
  }

  /** Closeness does not depend on the order of the two values, and a value
      is close to itself whenever the tolerances are not negative. */
  lemma IsCloseSymmetric(a: real, b: real, relTol: real, absTol: real)
    ensures IsClose(a, b, relTol, absTol) <==> IsClose(b, a, relTol, absTol)
    ensures 0.0 <= relTol && 0.0 <= absTol ==> IsClose(a, a, relTol, absTol)
  {
    assert Abs(a - b) == Abs(b - a);
    assert Max(Abs(a), Abs(b)) == Max(Abs(b), Abs(a));
  }

  /** numpy's sign. */
  function Sign(x: real): (r: real)
    ensures r == -1.0 || r == 0.0 || r == 1.0
    ensures (r == 1.0 <==> x > 0.0) && (r == -1.0 <==> x < 0.0)
  {
    if x < 0.0 then -1.0 else if x > 0.0 then 1.0 else 0.0
  }

  /** Share of the daily budget spent so far today. */
  function PercentBudgetDepletedToday(todaySpend: real, dailyBudget: real): (r: real)
    requires dailyBudget > 0.0
    ensures r * dailyBudget == todaySpend
    ensures (r >= 0.0 <==> todaySpend >= 0.0) && (r >= 1.0 <==> todaySpend >= dailyBudget)
  {
    todaySpend / dailyBudget
  }

  /** Spend error: positive exactly when more of the budget is spent than
      the target asks for by now, zero exactly on target. */
  function SpendError(percentBudgetDepletedToday: real, currentTargetSpend: real): (r: real)
    ensures (r > 0.0 <==> percentBudgetDepletedToday > currentTargetSpend)
    ensures (r == 0.0 <==> percentBudgetDepletedToday == currentTargetSpend)
  {
    percentBudgetDepletedToday - currentTargetSpend
  }

  /** Spend-error intensity: the error's magnitude. */
  function SpendErrorIntensity(spendError: real): (r: real)
    ensures r >= 0.0 && (r == spendError || r == -spendError)
    ensures r == 0.0 <==> spendError == 0.0
  {
    Abs(spendError)
  }

  /** Spend-error correction: proportional to the error up to an error of
      0.25, where it saturates at the maximal correction 0.025. */
  function SpendErrorCorrection(errorIntensity: real): (r: real)
    requires errorIntensity >= 0.0
    ensures 0.0 <= r <= MaxPsCorrection
    ensures errorIntensity >= ErrorCorrespondingToMaxCorrection ==> r == MaxPsCorrection
    ensures errorIntensity < ErrorCorrespondingToMaxCorrection ==> r == errorIntensity / 10.0
  {
    MaxPsCorrection * Min(1.0, errorIntensity / ErrorCorrespondingToMaxCorrection)
  }

  /** Spend rate of the latest minute, in daily budgets per day; 0 when
      nothing was spent. */
  function SpendDerivativeInLatestTimeInterval(lastSpend: real, dailyBudget: real): (r: real)
    requires dailyBudget > 0.0
    ensures lastSpend == 0.0 ==> r == 0.0
    ensures r * dailyBudget == lastSpend * NumIterationsPerDay as real
  {
    IsCloseToZero(lastSpend, 0.0);
    if IsClose(lastSpend, 0.0, RelTol, 0.0) then 0.0
    else
      var percentBudgetDepletedInLastTimeInterval := lastSpend / dailyBudget;
      percentBudgetDepletedInLastTimeInterval / PercentOfDayInOneIteration
  }

  /** Gradient error: positive exactly when the spend grew faster in the
      latest interval than the target slope. */
  function GradientError(spendDerivative: real, currentTargetSlope: real): (r: real)
    ensures (r > 0.0 <==> spendDerivative > currentTargetSlope)
    ensures (r == 0.0 <==> spendDerivative == currentTargetSlope)
  {
    spendDerivative - currentTargetSlope
  }

  /** Gradient-error intensity: the error's magnitude, capped at 1. */
  function GradientErrorIntensity(gradientError: real): (r: real)
    ensures 0.0 <= r <= 1.0
    ensures Abs(gradientError) <= 1.0 ==> r == Abs(gradientError)
  {
    Min(1.0, Abs(gradientError))
  }

  /** Gradient-error correction: between the minimal non-zero correction
      0.01 and 0.025/1.5. */
  function GradientErrorCorrection(gradientErrorIntensity: real): (r: real)
    requires 0.0 <= gradientErrorIntensity <= 1.0
    ensures MinimalNonZeroPsCorrection <= r <= MaxPsCorrection / GradientErrorCorrespondingToMaxCorrection
  {
    Max(MinimalNonZeroPsCorrection,
        MaxPsCorrection * gradientErrorIntensity / GradientErrorCorrespondingToMaxCorrection)
  }

  /** Minutes until the spend error closes at the current gradient error:
      1441 (never today) when the gradient error is within 1e-9 of zero. */
  function EstimatedIntervalsUntilTargetIsHit(spendError: real, gradientError: real): (r: real)
    ensures Abs(gradientError) <= 0.000000001 ==> r == MaxInterval
    ensures Abs(gradientError) > 0.000000001 ==> r * gradientError == -(NumIterationsPerDay as real) * spendError
  {
    IsCloseToZero(gradientError, 0.000000001);
    if IsClose(gradientError, 0.0, RelTol, 0.000000001) then MaxInterval
    else -1.0 * NumIterationsPerDay as real * spendError / gradientError
  }

  /** Weights of the spend-error and gradient-error corrections. */
  function PacingSignalCorrectionWeights(estimatedIntervals: real): (w: (real, real))
    ensures w.0 + w.1 == 1.0
    ensures 0.0 <= w.0 <= MaxPsCorrectionWeight && 0.0 < w.1 <= 1.0
    ensures estimatedIntervals < 0.0 ==> w.0 == 0.5
    ensures estimatedIntervals >= 0.0 ==> w.0 == Min(MaxPsCorrectionWeight, PsCorrectionWeightFactor * estimatedIntervals)
  {
    if estimatedIntervals < 0.0 then (0.5, 0.5)
    else
      var w1 := Min(MaxPsCorrectionWeight, PsCorrectionWeightFactor * estimatedIntervals);
      (w1, 1.0 - w1)
  }

  /** The corrected signal: the previous signal moved against both errors,
      clamped into [0.0001, 1]. */
  function NewPacingSignal(previousPs: real, spendError: real, gradientError: real, w1: real, w2: real): (r: real)
    ensures MinimalPs <= r <= MaxPs
  {
    var spendErrorCorrection := SpendErrorCorrection(SpendErrorIntensity(spendError));
    var spendErrorSign := Sign(spendError);
    var gradientErrorCorrection := GradientErrorCorrection(GradientErrorIntensity(gradientError));
    var gradientErrorSign := Sign(gradientError);
    ClampPs(CalculatedPs(previousPs, w1, spendErrorCorrection, spendErrorSign,
                         w2, gradientErrorCorrection, gradientErrorSign))
  }

  /** The previous signal minus both weighted, signed corrections. */
  function CalculatedPs(previousPs: real, w1: real, sc: real, s1: real, w2: real, gc: real, s2: real): real
  {
    previousPs - (w1 * sc * s1) - (w2 * gc * s2)
  }

  /** Raises a signal to at least 0.0001, then caps it at 1. */
  function ClampPs(calculatedPs: real): (r: real)
    ensures MinimalPs <= r <= MaxPs
    ensures MinimalPs <= calculatedPs <= MaxPs ==> r == calculatedPs
  {
    var clampedPs := Max(MinimalPs, calculatedPs);
    if clampedPs > MaxPs then MaxPs else clampedPs
  }

  /** Clamping moves a signal no further from a previous signal in [0, 1]
      than the signal was, or than the lower clamp 0.0001. */
  lemma ClampNoFurther(previousPs: real, calculatedPs: real)
    requires InUnit(previousPs)
    ensures Abs(ClampPs(calculatedPs) - previousPs) <= Max(Abs(calculatedPs - previousPs), MinimalPs)
  {
  }

  /** The signal before clamping, term by term. */
  lemma NewPacingSignalUnfold(previousPs: real, spendError: real, gradientError: real, w1: real, w2: real,
                              sc: real, gc: real, s1: real, s2: real)
    requires sc == SpendErrorCorrection(SpendErrorIntensity(spendError)) && s1 == Sign(spendError)
    requires gc == GradientErrorCorrection(GradientErrorIntensity(gradientError)) && s2 == Sign(gradientError)
    ensures NewPacingSignal(previousPs, spendError, gradientError, w1, w2) == ClampPs(CalculatedPs(previousPs, w1, sc, s1, w2, gc, s2))
  {
  }

  /** A weighted correction never exceeds the largest correction. */
  lemma WeightedCorrectionBound(w: real, c: real, s: real)
    requires 0.0 <= w && 0.0 <= c <= MaxPsCorrection
    requires s == -1.0 || s == 0.0 || s == 1.0
    ensures Abs(w * c * s) <= w * MaxPsCorrection
  {
    MulNonNegative(w, MaxPsCorrection - c);
    assert w * (MaxPsCorrection - c) == w * MaxPsCorrection - w * c;
    MulNonNegative(w, c);
    if s == 1.0 {
      assert w * c * s == w * c;
    } else if s == -1.0 {
      assert w * c * s == -(w * c);
    } else {
      assert w * c * s == 0.0;
    }
  }

  lemma MulNonNegative(a: real, b: real)
    requires 0.0 <= a && 0.0 <= b
    ensures 0.0 <= a * b
  {
  }

  /** With convex weights one correction step moves the signal by at most
      the maximal correction 0.025. */
  lemma CorrectionStepBounded(previousPs: real, spendError: real, gradientError: real, w1: real, w2: real)
    requires InUnit(previousPs)
    requires 0.0 <= w1 && 0.0 <= w2 && w1 + w2 == 1.0
    ensures Abs(NewPacingSignal(previousPs, spendError, gradientError, w1, w2) - previousPs) <= MaxPsCorrection
  {
    var sc := SpendErrorCorrection(SpendErrorIntensity(spendError));
    var gc := GradientErrorCorrection(GradientErrorIntensity(gradientError));
    NewPacingSignalUnfold(previousPs, spendError, gradientError, w1, w2, sc, gc, Sign(spendError), Sign(gradientError));
    WeightedStepBound(previousPs, sc, gc, Sign(spendError), Sign(gradientError), w1, w2);
  }

  lemma WeightedStepBound(previousPs: real, sc: real, gc: real, s1: real, s2: real, w1: real, w2: real)
    requires InUnit(previousPs) && 0.0 <= w1 && 0.0 <= w2 && w1 + w2 == 1.0
    requires 0.0 <= sc <= MaxPsCorrection && 0.0 <= gc <= MaxPsCorrection
    requires (s1 == -1.0 || s1 == 0.0 || s1 == 1.0) && (s2 == -1.0 || s2 == 0.0 || s2 == 1.0)
    ensures Abs(ClampPs(CalculatedPs(previousPs, w1, sc, s1, w2, gc, s2)) - previousPs) <= MaxPsCorrection
  {
    WeightedCorrectionBound(w1, sc, s1);
    WeightedCorrectionBound(w2, gc, s2);
    ClampedStepBound(previousPs, w1 * sc * s1, w2 * gc * s2, w1, w2);
  }

  lemma ClampedStepBound(previousPs: real, a: real, b: real, w1: real, w2: real)
    requires InUnit(previousPs) && w1 + w2 == 1.0
    requires Abs(a) <= w1 * MaxPsCorrection && Abs(b) <= w2 * MaxPsCorrection
    ensures Abs(ClampPs(previousPs - a - b) - previousPs) <= MaxPsCorrection
  {
    ClampNoFurther(previousPs, previousPs - a - b);
  }

  /** Overspending and spending too fast never raise the signal;
      underspending and spending too slowly never lower it. */
  lemma CorrectionDirection(previousPs: real, spendError: real, gradientError: real, w1: real, w2: real)
    requires MinimalPs <= previousPs <= MaxPs
    requires 0.0 <= w1 && 0.0 <= w2
    ensures spendError >= 0.0 && gradientError >= 0.0 ==> NewPacingSignal(previousPs, spendError, gradientError, w1, w2) <= previousPs
    ensures spendError <= 0.0 && gradientError <= 0.0 ==> NewPacingSignal(previousPs, spendError, gradientError, w1, w2) >= previousPs
  {
    var sc := SpendErrorCorrection(SpendErrorIntensity(spendError));
    var gc := GradientErrorCorrection(GradientErrorIntensity(gradientError));
    NewPacingSignalUnfold(previousPs, spendError, gradientError, w1, w2, sc, gc, Sign(spendError), Sign(gradientError));
    WeightedStepDirection(previousPs, sc, gc, Sign(spendError), Sign(gradientError), w1, w2);
  }

  lemma WeightedStepDirection(previousPs: real, sc: real, gc: real, s1: real, s2: real, w1: real, w2: real)
    requires MinimalPs <= previousPs <= MaxPs && 0.0 <= w1 && 0.0 <= w2 && 0.0 <= sc && 0.0 <= gc
    ensures s1 >= 0.0 && s2 >= 0.0 ==> ClampPs(CalculatedPs(previousPs, w1, sc, s1, w2, gc, s2)) <= previousPs
    ensures s1 <= 0.0 && s2 <= 0.0 ==> ClampPs(CalculatedPs(previousPs, w1, sc, s1, w2, gc, s2)) >= previousPs
  {
    MulNonNegative(w1, sc);
    MulNonNegative(w2, gc);
    if s1 >= 0.0 && s2 >= 0.0 {
      MulNonNegative(w1 * sc, s1);
      MulNonNegative(w2 * gc, s2);
    }
    if s1 <= 0.0 && s2 <= 0.0 {
      MulNonNegative(w1 * sc, -s1);
      MulNonNegative(w2 * gc, -s2);
    }
  }

  /** What the controller reads of a campaign when it decides the next signal. */
  datatype Snapshot = Snapshot(
    dailyBudget: real,
    ps: real,
    lastPositivePs: real,
    todaySpend: seq<real>,
    avgPsBelowThreshold: real,
    targetSlope: seq<real>,
    targetSpendCurve: seq<real>)

  predicate SnapshotValid(s: Snapshot)
  {
    && s.dailyBudget > 0.0
    && InUnit(s.ps) && InUnit(s.lastPositivePs)
    && (s.avgPsBelowThreshold == PsInvalidValue || InUnit(s.avgPsBelowThreshold))
    && |s.todaySpend| > 0
    && |s.targetSlope| == NumHoursPerDay && |s.targetSpendCurve| == NumHoursPerDay
  }

  /** The quantities the controller derives from a snapshot at a minute. */
  datatype Errors = Errors(
    percentBudgetDepletedToday: real,
    target: Target,
    spendError: real,
    gradientError: real,
    estimatedIntervals: real)

  function StrategyTarget(strategy: StrategyType, slope: seq<real>, curve: seq<real>, minuteInDay: nat): Target
    requires |slope| == NumHoursPerDay && |curve| == NumHoursPerDay
    requires minuteInDay < NumIterationsPerDay
  {
    match strategy
    case Linear => LinearTarget(minuteInDay)
    case NonLinear => NonLinearTarget(slope, curve, minuteInDay)
  }

  function ErrorsAt(s: Snapshot, strategy: StrategyType, minuteInDay: nat): Errors
    requires SnapshotValid(s) && minuteInDay < NumIterationsPerDay
  {
    var percentBudgetDepletedToday := PercentBudgetDepletedToday(Sum(s.todaySpend), s.dailyBudget);
    var target := StrategyTarget(strategy, s.targetSlope, s.targetSpendCurve, minuteInDay);
    var spendError := SpendError(percentBudgetDepletedToday, target.spend);
    var spendDerivative := SpendDerivativeInLatestTimeInterval(s.todaySpend[|s.todaySpend| - 1], s.dailyBudget);
    var gradientError := GradientError(spendDerivative, target.slope);
    var estimatedIntervals := EstimatedIntervalsUntilTargetIsHit(spendError, gradientError);
    Errors(percentBudgetDepletedToday, target, spendError, gradientError, estimatedIntervals)
  }

  /** The end-of-day window (minutes 1438 and 1439) with a valid daily
      average of the below-threshold signals. */
  predicate EndOfDayEdgeCase(minuteInDay: nat, avgPsBelowThreshold: real)
  {
    minuteInDay > NumIterationsPerDay - MinutesForEndDayEdgeCase && avgPsBelowThreshold != PsInvalidValue
  }

  /** The day's budget is spent (to within math.isclose) or overspent. */
  predicate BudgetDepleted(todaySpend: real, dailyBudget: real)
  {
    IsClose(todaySpend, dailyBudget, RelTol, 0.0) || todaySpend > dailyBudget
  }

  /** Against a positive budget the depletion test holds for every spend of
      at least the budget, and for no spend below all of the budget but the
      relative tolerance. */
  lemma BudgetDepletedBounds(todaySpend: real, dailyBudget: real)
    requires dailyBudget > 0.0
    ensures todaySpend >= dailyBudget ==> BudgetDepleted(todaySpend, dailyBudget)
    ensures BudgetDepleted(todaySpend, dailyBudget) ==> todaySpend >= (1.0 - RelTol) * dailyBudget
  {
    IsCloseSymmetric(todaySpend, dailyBudget, RelTol, 0.0);
  }

  /** The spend runs away: far too steep, hitting the target soon, and
      already beyond it. */
  predicate RunawayTrain(e: Errors)
  {
    && e.gradientError > RunawayGradientError
    && e.estimatedIntervals < RunawayIntervals
    && e.percentBudgetDepletedToday > Min(e.target.spend, 1.0)
  }

  /** The next pacing signal of a campaign. */
  function CalculateNewPacingSignal(s: Snapshot, strategy: StrategyType, minuteInDay: nat): (r: real)
    requires SnapshotValid(s) && minuteInDay < NumIterationsPerDay
    ensures InUnit(r)
  {
    if EndOfDayEdgeCase(minuteInDay, s.avgPsBelowThreshold) then Min(MaxPs, s.avgPsBelowThreshold)
    else if BudgetDepleted(Sum(s.todaySpend), s.dailyBudget) then s.ps
    else
      var e := ErrorsAt(s, strategy, minuteInDay);
      if RunawayTrain(e) then 0.0
      else
        var (w1, w2) := PacingSignalCorrectionWeights(e.estimatedIntervals);
        CorrectionStepBounded(s.lastPositivePs, e.spendError, e.gradientError, w1, w2);
        NewPacingSignal(s.lastPositivePs, e.spendError, e.gradientError, w1, w2)
  }

  /** The next signal lies in [0, 1]. At the end-of-day edge case it is the
      average of the day's low signals, capped; with the budget depleted it
      is the current signal; a runaway spend stops the campaign; otherwise it
      stays at or above the minimal signal and moves at most the maximal
      correction away from the last positive signal. */
  lemma NewPacingSignalSpec(s: Snapshot, strategy: StrategyType, minuteInDay: nat)
    requires SnapshotValid(s) && minuteInDay < NumIterationsPerDay
    ensures var r := CalculateNewPacingSignal(s, strategy, minuteInDay);
      && InUnit(r)
      && (EndOfDayEdgeCase(minuteInDay, s.avgPsBelowThreshold) ==> r == Min(MaxPs, s.avgPsBelowThreshold))
      && (!EndOfDayEdgeCase(minuteInDay, s.avgPsBelowThreshold) && BudgetDepleted(Sum(s.todaySpend), s.dailyBudget) ==>
            r == s.ps)
      && (!EndOfDayEdgeCase(minuteInDay, s.avgPsBelowThreshold) && !BudgetDepleted(Sum(s.todaySpend), s.dailyBudget) ==>
            && (RunawayTrain(ErrorsAt(s, strategy, minuteInDay)) ==> r == 0.0)
            && (!RunawayTrain(ErrorsAt(s, strategy, minuteInDay)) ==>
                  MinimalPs <= r && Abs(r - s.lastPositivePs) <= MaxPsCorrection))
  {
    if !EndOfDayEdgeCase(minuteInDay, s.avgPsBelowThreshold) && !BudgetDepleted(Sum(s.todaySpend), s.dailyBudget) {
      var e := ErrorsAt(s, strategy, minuteInDay);
      if !RunawayTrain(e) {
        var (w1, w2) := PacingSignalCorrectionWeights(e.estimatedIntervals);
        CorrectionStepBounded(s.lastPositivePs, e.spendError, e.gradientError, w1, w2);
      }
    }
  }

  /** One completed day of a campaign's pacing signals, placed on the
      simulation's day axis. */
  datatype PsRecord = PsRecord(dayStarted: nat, psHistory: seq<seq<real>>)

  predicate RecordsValid(rs: seq<PsRecord>)
  {
    forall k, d :: 0 <= k < |rs| && 0 <= d < |rs[k].psHistory| ==> |rs[k].psHistory[d]| > 0
  }

  /** The record has a day at simulation day t. */
  predicate AliveOn(r: PsRecord, t: nat)
  {
    r.dayStarted <= t < r.dayStarted + |r.psHistory|
  }

  /** The record's day at t averaged below the 95% threshold: a budget-constrained day. */
  predicate BudgetConstrainedOn(r: PsRecord, t: nat)
    requires forall d :: 0 <= d < |r.psHistory| ==> |r.psHistory[d]| > 0
  {
    AliveOn(r, t) && Mean(r.psHistory[t - r.dayStarted]) < BudgetSpendThreshold
  }

  function CountAlive(rs: seq<PsRecord>, t: nat): nat
  {
    if |rs| == 0 then 0
    else CountAlive(rs[..|rs| - 1], t) + (if AliveOn(rs[|rs| - 1], t) then 1 else 0)
  }

  function CountConstrained(rs: seq<PsRecord>, t: nat): nat
    requires RecordsValid(rs)
  {
    if |rs| == 0 then 0
    else CountConstrained(rs[..|rs| - 1], t) + (if BudgetConstrainedOn(rs[|rs| - 1], t) then 1 else 0)
  }

  function CountUnconstrained(rs: seq<PsRecord>, t: nat): nat
    requires RecordsValid(rs)
  {
    if |rs| == 0 then 0
    else
      var r := rs[|rs| - 1];
      CountUnconstrained(rs[..|rs| - 1], t) + (if AliveOn(r, t) && !BudgetConstrainedOn(r, t) then 1 else 0)
  }

  /** Every campaign alive on a day is counted exactly once, as budget
      constrained or not. */
  lemma {:induction false} EveryCampaignDayClassifiedOnce(rs: seq<PsRecord>, t: nat)
    requires RecordsValid(rs)
    ensures CountConstrained(rs, t) + CountUnconstrained(rs, t) == CountAlive(rs, t)
  {
    if |rs| > 0 {
      EveryCampaignDayClassifiedOnce(rs[..|rs| - 1], t);
    }
  }

  ghost predicate CampaignValid(c: TrackedCampaign)
    reads c
  {
    && c.Valid() && c.HistoryDaysNonEmpty()
    && |c.currentTargetSlope| == NumHoursPerDay && |c.currentTargetSpendCurve| == NumHoursPerDay
  }

  function SnapshotOf(c: TrackedCampaign): (s: Snapshot)
    reads c
    requires c.Valid()
  {
    Snapshot(c.dailyBudget, c.ps, c.lastPositivePs, c.todaySpend, c.AvgDailyPsBelowThreshold(),
             c.currentTargetSlope, c.currentTargetSpendCurve)
  }

  function WithSpend(s: Snapshot, spend: real): Snapshot
  {
    s.(todaySpend := s.todaySpend + [spend])
  }

  /** The per-minute step on one campaign: the spend is recorded first,
      then the new signal is decided from the updated record and stored. */
  method UpdateSpendAndPacingSignal(c: TrackedCampaign, strategy: StrategyType, spend: real, minuteInDay: nat)
    requires CampaignValid(c) && minuteInDay < NumIterationsPerDay
    modifies c
    ensures CampaignValid(c)
    ensures PacingOf(c) == Recorded(old(PacingOf(c)), spend, Signal(old(PacingOf(c)), strategy, spend, minuteInDay))
  {
    ghost var b := PacingOf(c);
    c.UpdateSpend(spend);
    assert SnapshotOf(c) == WithSpend(SnapshotFrom(b), spend);
    var newPs := CalculateNewPacingSignal(SnapshotOf(c), strategy, minuteInDay);
    NewPacingSignalSpec(SnapshotOf(c), strategy, minuteInDay);
    c.UpdatePacingSignal(newPs);
  }

  /** The day-end step on one campaign: the strategy updates the slope,
      then the day is rolled. When the nonlinear update raises (`ok` false)
      the day is not rolled. */
  method EndDay(c: TrackedCampaign, strategy: StrategyType) returns (ok: bool)
    requires CampaignValid(c)
    modifies c
    ensures CampaignValid(c)
    ensures (PacingOf(c), ok) == DayEnded(old(PacingOf(c)), strategy)
  {
    ok := true;
    match strategy {
      case Linear => UpdateSlopeLinear(c);
      case NonLinear => ok := UpdateSlopeNonLinear(c);
    }
    if ok {
      c.NewDayInit(false);
    }
  }

  /** A controller record as a value: every field that `end_iteration`
      reads or writes. */
  datatype Pacing = Pacing(
    dailyBudget: real,
    ps: real,
    previousPs: real,
    lastPositivePs: real,
    todaySpend: seq<real>,
    todayPs: seq<real>,
    spendHistory: seq<seq<real>>,
    psHistory: seq<seq<real>>,
    targetSlope: seq<real>,
    targetSlopeHistory: seq<seq<real>>,
    targetSpendCurve: seq<real>,
    targetSpendHistory: seq<seq<real>>,
    sumPsBelowThreshold: real,
    countPsBelowThreshold: nat)

  function PacingOf(c: TrackedCampaign): Pacing
    reads c
  {
    Pacing(c.dailyBudget, c.ps, c.previousPs, c.lastPositivePs, c.todaySpend, c.todayPs, c.spendHistory, c.psHistory,
           c.currentTargetSlope, c.targetSlopeHistory, c.currentTargetSpendCurve, c.targetSpendHistory,
           c.sumPsBelowThreshold, c.countPsBelowThreshold)
  }

  /** The record invariant (`CampaignValid`) on values. */
  predicate PacingValid(b: Pacing)
  {
    && b.dailyBudget > 0.0
    && InUnit(b.ps) && InUnit(b.previousPs) && InUnit(b.lastPositivePs)
    && AllInUnit(b.todayPs)
    && 0.0 <= b.sumPsBelowThreshold <= b.countPsBelowThreshold as real
    && (forall d :: 0 <= d < |b.psHistory| ==> |b.psHistory[d]| > 0)
    && |b.targetSlope| == NumHoursPerDay && |b.targetSpendCurve| == NumHoursPerDay
  }

  /** What the controller reads of a record that was `b`. */
  function SnapshotFrom(b: Pacing): (s: Snapshot)
  {
    Snapshot(b.dailyBudget, b.ps, b.lastPositivePs, b.todaySpend, DailyAverage(b.sumPsBelowThreshold, b.countPsBelowThreshold),
             b.targetSlope, b.targetSpendCurve)
  }

  /** `update_spend(spend)` followed by `update_pacing_signal(p)`: the
      spend and the signal are appended, the previous signal and the last
      positive one move along, and the signal joins the below-threshold
      average when less than 95% of the budget is spent, counting `spend`. */
  function Recorded(b: Pacing, spend: real, p: real): Pacing
    requires b.dailyBudget > 0.0
  {
    var todaySpend := b.todaySpend + [spend];
    var below := Sum(todaySpend) / b.dailyBudget < BudgetSpendThreshold;
    b.(ps := p, previousPs := b.ps, lastPositivePs := if b.ps > 0.0 then b.ps else b.lastPositivePs,
       todaySpend := todaySpend, todayPs := b.todayPs + [p],
       sumPsBelowThreshold := b.sumPsBelowThreshold + (if below then p else 0.0),
       countPsBelowThreshold := b.countPsBelowThreshold + (if below then 1 else 0))
  }

  /** The strategy's `update_slope` at the end of the day, and whether it
      completed. The linear strategy sets the same curves again, so each
      history gains a copy. The nonlinear one replaces the slope by the
      smoothed update, pushing the old slope; it raises (false) when the
      hourly averages cannot drive the update, leaving the record alone. */
  function SlopeRelearned(b: Pacing, strategy: StrategyType): (Pacing, bool)
  {
    match strategy
    case Linear =>
      (b.(targetSlopeHistory := PushIfNonEmpty(b.targetSlopeHistory, b.targetSlope),
          targetSpendHistory := PushIfNonEmpty(b.targetSpendHistory, b.targetSpendCurve)), true)
    case NonLinear =>
      var daily := DailyAverage(b.sumPsBelowThreshold, b.countPsBelowThreshold);
      var hourly := AveragePerSize(b.todayPs, NumIterationsPerHour);
      if HourlyAveragesUsable(|b.targetSlope|, hourly) then
        (b.(targetSlope := Smoothed(UpdatedSlopes(b.targetSlope, daily, hourly)),
            targetSlopeHistory := PushIfNonEmpty(b.targetSlopeHistory, b.targetSlope)), true)
      else (b, false)
  }

  /** `new_day_init(is_new_campaign=False)`: the signals restart from the
      day's below-threshold average when there is one, the day's arrays
      move into the histories and the accumulators restart. */
  function DayRolled(b: Pacing): Pacing
  {
    var avg := DailyAverage(b.sumPsBelowThreshold, b.countPsBelowThreshold);
    var lastPositive := if avg != PsInvalidValue then avg else b.lastPositivePs;
    b.(lastPositivePs := lastPositive, previousPs := Min(lastPositive, MaxPs),
       psHistory := PushIfNonEmpty(b.psHistory, b.todayPs), todayPs := [],
       spendHistory := PushIfNonEmpty(b.spendHistory, b.todaySpend), todaySpend := [],
       sumPsBelowThreshold := 0.0, countPsBelowThreshold := 0)
  }

  /** The day end of a record: the slope update, then, when it completed,
      the day rollover. */
  function DayEnded(b: Pacing, strategy: StrategyType): (Pacing, bool)
  {
    var (s, ok) := SlopeRelearned(b, strategy);
    if ok then (DayRolled(s), true) else (s, false)
  }

  /** The signal the controller decides for a record that was `b` when
      handed `spend` (the stored signal for a record it cannot read). */
  function Signal(b: Pacing, strategy: StrategyType, spend: real, minuteInDay: nat): real
  {
    var s := WithSpend(SnapshotFrom(b), spend);
    if SnapshotValid(s) && minuteInDay < NumIterationsPerDay then CalculateNewPacingSignal(s, strategy, minuteInDay)
    else b.ps
  }

  /** The controller's `end_iteration` on a record that was `b`, handed
      `spend` in minute `minuteInDay`: the spend is recorded, the new
      signal decided from the updated record and stored, and in the last
      minute of the day the day ends. The flag is false when the day-end
      slope update raised. */
  function Reported(b: Pacing, strategy: StrategyType, spend: real, minuteInDay: nat): (Pacing, bool)
    requires b.dailyBudget > 0.0
  {
    var m := Recorded(b, spend, Signal(b, strategy, spend, minuteInDay));
    if minuteInDay == NumIterationsPerDay - 1 then DayEnded(m, strategy) else (m, true)
  }

  /** A record that was `b` became `a`, with outcome `ok`, by one
      `end_iteration` handing it `spend` in minute `minuteInDay`. */
  ghost predicate ReportedFrom(a: Pacing, b: Pacing, strategy: StrategyType, spend: real, minuteInDay: nat, ok: bool)
  {
    && b.dailyBudget > 0.0
    && SnapshotValid(WithSpend(SnapshotFrom(b), spend)) && minuteInDay < NumIterationsPerDay
    && (a, ok) == Reported(b, strategy, spend, minuteInDay)
  }

  /** The pacing records of the controller's campaigns, by id. */
  ghost function PacingsOf(ps: MystiquePacingSystem): map<string, Pacing>
    reads ps, ps.campaigns.Values
  {
    map id | id in ps.campaigns :: PacingOf(ps.campaigns[id])
  }

  /** The records by id depend only on the controller and its campaigns. */
  twostate lemma PacingsUnchanged(ps: MystiquePacingSystem)
    requires unchanged(ps) && unchanged(ps.campaigns.Values)
    ensures PacingsOf(ps) == old(PacingsOf(ps))
  {
  }

  /** A valid record reads as a valid snapshot once handed a spend. */
  lemma SnapshotOfValidRecord(b: Pacing, spend: real)
    requires PacingValid(b)
    ensures SnapshotValid(WithSpend(SnapshotFrom(b), spend))
  {
    AverageOfAccumulated(b.sumPsBelowThreshold, b.countPsBelowThreshold);
  }

  /** One report keeps a valid record valid: every signal it holds stays
      in [0, 1], the below-threshold accumulator stays a sum of such
      signals, every archived day has a signal, and the curves keep one
      entry per hour; the nonlinear relearning keeps the slope in
      [0.1, 12]. */
  lemma ReportKeepsRecordValid(b: Pacing, strategy: StrategyType, spend: real, minuteInDay: nat)
    requires PacingValid(b) && minuteInDay < NumIterationsPerDay
    ensures var (a, ok) := Reported(b, strategy, spend, minuteInDay);
      && PacingValid(a)
      && (strategy == NonLinear && ok && minuteInDay == NumIterationsPerDay - 1 ==> SlopesInRange(a.targetSlope))
  {
    SnapshotOfValidRecord(b, spend);
    var p := Signal(b, strategy, spend, minuteInDay);
    NewPacingSignalSpec(WithSpend(SnapshotFrom(b), spend), strategy, minuteInDay);
    var m := Recorded(b, spend, p);
    assert PacingValid(m);
    if minuteInDay == NumIterationsPerDay - 1 {
      var (r, ok) := SlopeRelearned(m, strategy);
      if strategy == NonLinear && ok {
        RelearnedSlopeInRange(m.targetSlope, DailyAverage(m.sumPsBelowThreshold, m.countPsBelowThreshold),
                              AveragePerSize(m.todayPs, NumIterationsPerHour));
      }
      assert PacingValid(r);
      AverageOfAccumulated(r.sumPsBelowThreshold, r.countPsBelowThreshold);
    }
  }

  /** Before the day's last minute a report only appends the spend and
      the signal: the histories and the curves stay. In the last minute a
      completed report archives the whole day, including this minute's
      spend and signal, empties today's arrays and restarts the
      accumulators; a failed one leaves the day unarchived. */
  lemma ReportArchivesDay(b: Pacing, strategy: StrategyType, spend: real, minuteInDay: nat)
    requires b.dailyBudget > 0.0
    ensures var (a, ok) := Reported(b, strategy, spend, minuteInDay);
      var p := Signal(b, strategy, spend, minuteInDay);
      && a.ps == p
      && (minuteInDay != NumIterationsPerDay - 1 ==>
            && ok && a.todaySpend == b.todaySpend + [spend] && a.todayPs == b.todayPs + [p]
            && a.spendHistory == b.spendHistory && a.psHistory == b.psHistory
            && a.targetSlope == b.targetSlope && a.targetSpendCurve == b.targetSpendCurve)
      && (minuteInDay == NumIterationsPerDay - 1 && ok ==>
            && a.todaySpend == [] && a.todayPs == []
            && a.spendHistory == b.spendHistory + [b.todaySpend + [spend]]
            && a.psHistory == b.psHistory + [b.todayPs + [p]]
            && a.sumPsBelowThreshold == 0.0 && a.countPsBelowThreshold == 0)
      && (minuteInDay == NumIterationsPerDay - 1 && !ok ==>
            && strategy == NonLinear
            && a.todaySpend == b.todaySpend + [spend] && a.todayPs == b.todayPs + [p]
            && a.spendHistory == b.spendHistory && a.psHistory == b.psHistory && a.targetSlope == b.targetSlope)
  {
  }

  class MystiquePacingSystem {
    const strategy: StrategyType
    var campaigns: map<string, TrackedCampaign>
    /** Ids in the order they were registered (the dictionary's order). */
    var order: seq<string>

    ghost predicate Valid()
      reads this, campaigns.Values
    {
      && (forall id :: id in campaigns <==> id in order)
      && (forall i, j :: 0 <= i < j < |order| ==> order[i] != order[j])
      && (forall a, b :: a in campaigns && b in campaigns && a != b ==> campaigns[a] != campaigns[b])
      && (forall id :: id in campaigns ==> CampaignValid(campaigns[id]))
    }

    constructor (strategy: StrategyType)
      ensures Valid() && this.strategy == strategy
      ensures campaigns == map[] && order == []
    {
      this.strategy := strategy;
      campaigns := map[];
      order := [];
    }

    /** Registers a campaign under a new id, with its initial signal and
      the strategy's initial curves; an id already tracked changes nothing. */
    method AddCampaign(id: string, dailyBudget: real, dayStarted: nat)
      requires Valid() && dailyBudget > 0.0
      modifies this
      ensures Valid()
      ensures id in old(campaigns) ==> campaigns == old(campaigns) && order == old(order)
      ensures forall c :: c in campaigns.Values ==> c in old(campaigns.Values) || fresh(c)
      ensures id !in old(campaigns) ==>
        && campaigns.Keys == old(campaigns).Keys + {id}
        && order == old(order) + [id]
        && (forall k :: k in old(campaigns) ==> campaigns[k] == old(campaigns)[k])
        && fresh(campaigns[id])
        && campaigns[id].dailyBudget == dailyBudget && campaigns[id].dayStarted == dayStarted
        && campaigns[id].ps == campaigns[id].previousPs == campaigns[id].lastPositivePs == InitialPs(dailyBudget)
        && campaigns[id].currentTargetSlope == UnitSlope()
        && campaigns[id].currentTargetSpendCurve == TargetSpendCurve(UnitSlope())
        && campaigns[id].targetSlopeHistory == [] && campaigns[id].targetSpendHistory == []
        && campaigns[id].todayPs == [] && campaigns[id].todaySpend == []
        && campaigns[id].psHistory == [] && campaigns[id].spendHistory == []
    {
      if id !in campaigns {
        var c := new TrackedCampaign(dailyBudget, dayStarted);
        InitializeSlope(c);
        campaigns := campaigns[id := c];
        order := order + [id];
      }
    }

    /** The signal the bidders use: the stored one for a tracked id, 0
        otherwise. Only the registry and the stored signals are read. */
    function GetPacingSignal(id: string): (r: real)
      reads `campaigns, campaigns.Values`ps
      ensures id in campaigns ==> r == campaigns[id].ps
      ensures id !in campaigns ==> r == DefaultPs
    {
      if id in campaigns then campaigns[id].ps else DefaultPs
    }

    /** Every signal handed to the bidders lies in [0, 1]. */
    lemma PacingSignalInUnit(id: string)
      requires Valid()
      ensures InUnit(GetPacingSignal(id))
    {
      if id in campaigns {
        assert CampaignValid(campaigns[id]);
      }
    }

    /** One minute of one campaign: record the spend, decide and store the
      new signal, and at the day's last minute relearn the slope and roll
      the day. `ok` is false when the nonlinear relearning raises; the day
      is then not rolled. */
    method EndIteration(id: string, spend: real, minuteInDay: nat) returns (ok: bool)
      requires Valid() && minuteInDay < NumIterationsPerDay
      modifies if id in campaigns then {campaigns[id]} else {}
      ensures Valid() && campaigns == old(campaigns) && order == old(order)
      ensures id !in campaigns ==> ok
      ensures strategy == Linear ==> ok
      ensures !ok ==> minuteInDay == NumIterationsPerDay - 1
      ensures id in campaigns ==>
        ReportedFrom(PacingOf(campaigns[id]), old(PacingOf(campaigns[id])), strategy, spend, minuteInDay, ok)
    {
      ok := true;
      if id in campaigns {
        var c := campaigns[id];
        ghost var b := PacingOf(c);
        assert CampaignValid(c);
        assert PacingValid(b);
        SnapshotOfValidRecord(b, spend);
        UpdateSpendAndPacingSignal(c, strategy, spend, minuteInDay);
        ghost var m := PacingOf(c);
        if minuteInDay == NumIterationsPerDay - 1 {
          ok := EndDay(c, strategy);
          assert (PacingOf(c), ok) == DayEnded(m, strategy);
        }
        assert (PacingOf(c), ok) == Reported(b, strategy, spend, minuteInDay);
      }
    }

    /** The controller's part of one minute for the campaigns `ids` in
      turn, the `k`-th handed `spends[k]`; a raise stops the turn after
      the campaign that raised. `n` is how many campaigns were handed their
      spend (only the last of them may have raised); the records of those
      after them stay as they were. */
    method EndIterations(ids: seq<string>, spends: seq<real>, minuteInDay: nat) returns (ok: bool, n: nat)
      requires Valid() && minuteInDay < NumIterationsPerDay && |spends| == |ids|
      requires forall k :: 0 <= k < |ids| ==> ids[k] in campaigns
      requires forall a, b :: 0 <= a < b < |ids| ==> ids[a] != ids[b]
      modifies campaigns.Values
      ensures Valid() && campaigns == old(campaigns) && order == old(order)
      ensures n <= |ids| && (ok ==> n == |ids|) && (!ok ==> 0 < n)
      ensures strategy == Linear ==> ok
      ensures forall k :: 0 <= k < n ==>
        ReportedFrom(PacingOf(campaigns[ids[k]]), old(PacingOf(campaigns[ids[k]])), strategy, spends[k],
                     minuteInDay, ok || k < n - 1)
      ensures forall k :: n <= k < |ids| ==> unchanged(campaigns[ids[k]])
    {
      ok, n := true, 0;
      var cs := campaigns;
      while n < |ids| && ok
        invariant n <= |ids| && Valid() && campaigns == cs && order == old(order)
        invariant (!ok ==> 0 < n) && (strategy == Linear ==> ok)
        invariant forall k {:trigger PacingOf(cs[ids[k]])} :: 0 <= k < n ==>
          ReportedFrom(PacingOf(cs[ids[k]]), old(PacingOf(cs[ids[k]])), strategy, spends[k],
                       minuteInDay, ok || k < n - 1)
        invariant forall k :: n <= k < |ids| ==> unchanged(cs[ids[k]])
      {
        assert forall k :: 0 <= k < |ids| && k != n ==> cs[ids[k]] != cs[ids[n]];
        ok := EndIteration(ids[n], spends[n], minuteInDay);
        n := n + 1;
      }
    }

    /** The tracked campaigns' pacing-signal histories, in registration order. */
    function Records(): (rs: seq<PsRecord>)
      reads this, campaigns.Values
      requires Valid()
      ensures |rs| == |order| && RecordsValid(rs)
      ensures forall k :: 0 <= k < |order| ==> rs[k] == PsRecord(campaigns[order[k]].dayStarted, campaigns[order[k]].psHistory)
    {
      var ids, cs := order, campaigns;
      var rs := seq(|ids|, k requires 0 <= k < |ids| reads cs.Values => PsRecord(cs[ids[k]].dayStarted, cs[ids[k]].psHistory));
      assert forall k :: 0 <= k < |rs| ==> CampaignValid(cs[ids[k]]);
      rs
    }

    /** Per simulation day, the number of campaigns whose signals averaged
      below 95% that day and the number that did not. Every campaign day
      must fall within the simulated days (Python raises IndexError otherwise). */
    method GlobalPacingStatistics(clock: Clock.Clock) returns (bc: seq<nat>, nbc: seq<nat>)
      requires Valid()
      requires forall id :: id in campaigns ==> campaigns[id].dayStarted + |campaigns[id].psHistory| <= clock.Days()
      ensures |bc| == clock.Days() && |nbc| == clock.Days()
      ensures forall t :: 0 <= t < clock.Days() ==>
        bc[t] == CountConstrained(Records(), t) && nbc[t] == CountUnconstrained(Records(), t)
    {
      var days := clock.Days();
      bc := seq(days, _ => 0);
      nbc := seq(days, _ => 0);
      var rs := Records();
      var k := 0;
      while k < |rs|
        invariant 0 <= k <= |rs| && |bc| == days && |nbc| == days
        invariant RecordsValid(rs[..k])
        invariant forall t :: 0 <= t < days ==> bc[t] == CountConstrained(rs[..k], t) && nbc[t] == CountUnconstrained(rs[..k], t)
      {
        assert rs[..k + 1] == rs[..k] + [rs[k]];
        assert rs[k].dayStarted + |rs[k].psHistory| <= days by {
          assert order[k] in campaigns;
        }
        bc, nbc := CountCampaignDays(bc, nbc, rs[..k], rs[k], days);
        k := k + 1;
      }
      assert rs[..k] == rs;
    }

    /** Adds one campaign's days to the two per-day counts. */
    static method CountCampaignDays(bc0: seq<nat>, nbc0: seq<nat>, done: seq<PsRecord>, r: PsRecord, days: nat)
      returns (bc: seq<nat>, nbc: seq<nat>)
      requires RecordsValid(done) && RecordsValid(done + [r]) && r.dayStarted + |r.psHistory| <= days
      requires |bc0| == days && |nbc0| == days
      requires forall t :: 0 <= t < days ==> bc0[t] == CountConstrained(done, t) && nbc0[t] == CountUnconstrained(done, t)
      ensures |bc| == days && |nbc| == days
      ensures forall t :: 0 <= t < days ==> bc[t] == CountConstrained(done + [r], t) && nbc[t] == CountUnconstrained(done + [r], t)
    {
      assert (done + [r])[..|done|] == done;
      assert forall d :: 0 <= d < |r.psHistory| ==> |r.psHistory[d]| > 0 by {
        forall d | 0 <= d < |r.psHistory| ensures |r.psHistory[d]| > 0 {
          assert (done + [r])[|done|] == r;
        }
      }
      bc, nbc := bc0, nbc0;
      var day := 0;
      while day < |r.psHistory|
        invariant 0 <= day <= |r.psHistory| && |bc| == days && |nbc| == days
        invariant forall t :: 0 <= t < days ==>
          && bc[t] == bc0[t] + (if t < r.dayStarted + day && BudgetConstrainedOn(r, t) then 1 else 0)
          && nbc[t] == nbc0[t] + (if t < r.dayStarted + day && AliveOn(r, t) && !BudgetConstrainedOn(r, t) then 1 else 0)
      {
        var t := r.dayStarted + day;
        if Mean(r.psHistory[day]) < BudgetSpendThreshold {
          bc := bc[t := bc[t] + 1];
        } else {
          nbc := nbc[t := nbc[t] + 1];
        }
        day := day + 1;
      }
    }
  }
}

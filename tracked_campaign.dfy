/** The controller's per-campaign record
    (src/system/budget_pacing/mystique/mystique_tracked_campaign.py). */
module TrackedCampaigns {
  import opened MystiqueConstants
  import opened MystiqueUtils

  /** A pacing signal is a bid multiplier in [0, 1]. */
  predicate InUnit(x: real) { MinPs <= x <= MaxPs }

  predicate AllInUnit(s: seq<real>) { forall i :: 0 <= i < |s| ==> InUnit(s[i]) }

  /** Initial pacing signal of a new campaign: the maximum for a high budget,
      the small bootstrap value otherwise. */
  function InitialPs(dailyBudget: real): (r: real)
    ensures InUnit(r) && r > 0.0
    ensures dailyBudget > MinDailyBudgetForHighInitialization ==> r == MaxPs
    ensures dailyBudget <= MinDailyBudgetForHighInitialization ==> r == PsForInitialization
  {
    if dailyBudget > MinDailyBudgetForHighInitialization then MaxPs else PsForInitialization
  }

  /** The average of `count` accumulated signals summing to `sum`, or the
      invalid sentinel when there are none. */
  function DailyAverage(sum: real, count: nat): real
  {
    if count == 0 then PsInvalidValue else sum / count as real
  }

  /** `history` gains `today` as one more day, unless `today` is empty. */
  function PushIfNonEmpty<T>(history: seq<seq<T>>, today: seq<T>): (r: seq<seq<T>>)
    ensures |today| == 0 ==> r == history
    ensures |today| > 0 ==> |r| == |history| + 1 && r[..|history|] == history && r[|history|] == today
  {
    if |today| > 0 then history + [today] else history
  }

  class TrackedCampaign {
    const dailyBudget: real
    var ps: real
    var previousPs: real
    var lastPositivePs: real
    var psHistory: seq<seq<real>>
    var todayPs: seq<real>
    var spendHistory: seq<seq<real>>
    var todaySpend: seq<real>
    var currentTargetSlope: seq<real>
    var targetSlopeHistory: seq<seq<real>>
    var currentTargetSpendCurve: seq<real>
    var targetSpendHistory: seq<seq<real>>
    var sumPsBelowThreshold: real
    var countPsBelowThreshold: nat
    /** Day on which the controller started tracking the campaign. The
        source reads this attribute without ever setting it; the model sets
        it at registration. */
    const dayStarted: nat

    /** The record's invariant: every pacing signal it holds is in [0, 1],
        and the below-threshold accumulator sums `count` such signals. */
    ghost predicate Valid()
      reads this
    {
      && dailyBudget > 0.0
      && InUnit(ps) && InUnit(previousPs) && InUnit(lastPositivePs)
      && AllInUnit(todayPs)
      && 0.0 <= sumPsBelowThreshold <= countPsBelowThreshold as real
    }

    /** Every completed day in the pacing-signal history has at least one signal. */
    ghost predicate HistoryDaysNonEmpty()
      reads this
    {
      forall d :: 0 <= d < |psHistory| ==> |psHistory[d]| > 0
    }

    constructor (dailyBudget: real, dayStarted: nat)
      requires dailyBudget > 0.0
      ensures Valid()
      ensures this.dailyBudget == dailyBudget && this.dayStarted == dayStarted
      ensures ps == previousPs == lastPositivePs == InitialPs(dailyBudget)
      ensures psHistory == [] && todayPs == [] && spendHistory == [] && todaySpend == []
      ensures currentTargetSlope == [] && targetSlopeHistory == []
      ensures currentTargetSpendCurve == [] && targetSpendHistory == []
      ensures sumPsBelowThreshold == 0.0 && countPsBelowThreshold == 0
    {
      this.dailyBudget := dailyBudget;
      this.dayStarted := dayStarted;
      ps, previousPs, lastPositivePs := PsForInitialization, PsForInitialization, PsForInitialization;
      psHistory, todayPs, spendHistory, todaySpend := [], [], [], [];
      currentTargetSlope, targetSlopeHistory := [], [];
      currentTargetSpendCurve, targetSpendHistory := [], [];
      sumPsBelowThreshold, countPsBelowThreshold := 0.0, 0;
      new;
      NewDayInit(true);
    }

    /** Average of the pacing signals recorded while less than 95% of the
        budget was spent today, or the invalid sentinel -1 when none was. */
    function AvgDailyPsBelowThreshold(): (r: real)
      reads this
      requires Valid()
      ensures r == PsInvalidValue <==> countPsBelowThreshold == 0
      ensures countPsBelowThreshold > 0 ==> InUnit(r)
    {
      AverageOfAccumulated(sumPsBelowThreshold, countPsBelowThreshold);
      DailyAverage(sumPsBelowThreshold, countPsBelowThreshold)
    }

    /** Total spend reported today: nothing before the first report, and
        not negative while no report is. */
    function TodaySpend(): (r: real)
      reads this
      ensures |todaySpend| == 0 ==> r == 0.0
      ensures (forall i :: 0 <= i < |todaySpend| ==> todaySpend[i] >= 0.0) ==> r >= 0.0
    {
      SumNonNegativeIf(todaySpend, forall i :: 0 <= i < |todaySpend| ==> todaySpend[i] >= 0.0);
      Sum(todaySpend)
    }

    /** Spend reported in the latest iteration (Python raises on an empty day). */
    function SpendInLastTimeInterval(): (r: real)
      reads this
      requires |todaySpend| > 0
      ensures TodaySpend() == Sum(todaySpend[..|todaySpend| - 1]) + r
    {
      todaySpend[|todaySpend| - 1]
    }

    /** Hourly averages of today's pacing signals; each lies in [0, 1]. */
    function AvgHourlyPs(): (r: seq<real>)
      reads this
      requires Valid()
      ensures |r| == NumChunks(|todayPs|, NumIterationsPerHour)
      ensures AllInUnit(r)
    {
      AveragePerSizeBounds(todayPs, NumIterationsPerHour, MinPs, MaxPs);
      AveragePerSize(todayPs, NumIterationsPerHour)
    }

    /** Day rollover (and, with isNewCampaign, the initial set-up): the
        pacing signals restart from the day's below-threshold average when
        there is one, the day's arrays move into history, and the
        accumulators restart. */
    method NewDayInit(isNewCampaign: bool)
      requires Valid()
      modifies this
      ensures Valid()
      ensures var high := isNewCampaign && dailyBudget > MinDailyBudgetForHighInitialization;
        var lastPositive := if high then MaxPs else old(lastPositivePs);
        var avg := old(AvgDailyPsBelowThreshold());
        && ps == (if high then MaxPs else old(ps))
        && lastPositivePs == (if avg != PsInvalidValue then avg else lastPositive)
        && previousPs == Min(lastPositivePs, MaxPs)
      ensures psHistory == PushIfNonEmpty(old(psHistory), old(todayPs)) && todayPs == []
      ensures spendHistory == PushIfNonEmpty(old(spendHistory), old(todaySpend)) && todaySpend == []
      ensures old(HistoryDaysNonEmpty()) ==> HistoryDaysNonEmpty()
      ensures sumPsBelowThreshold == 0.0 && countPsBelowThreshold == 0
      ensures currentTargetSlope == old(currentTargetSlope) && targetSlopeHistory == old(targetSlopeHistory)
      ensures currentTargetSpendCurve == old(currentTargetSpendCurve) && targetSpendHistory == old(targetSpendHistory)
    {
      RestartPacingSignals(isNewCampaign);
      ArchiveDay();
    }

    /** The pacing-signal half of the rollover. */
    method RestartPacingSignals(isNewCampaign: bool)
      requires Valid()
      modifies this
      ensures Valid()
      ensures var high := isNewCampaign && dailyBudget > MinDailyBudgetForHighInitialization;
        var lastPositive := if high then MaxPs else old(lastPositivePs);
        var avg := old(AvgDailyPsBelowThreshold());
        && ps == (if high then MaxPs else old(ps))
        && lastPositivePs == (if avg != PsInvalidValue then avg else lastPositive)
        && previousPs == Min(lastPositivePs, MaxPs)
      ensures psHistory == old(psHistory) && todayPs == old(todayPs)
      ensures spendHistory == old(spendHistory) && todaySpend == old(todaySpend)
      ensures sumPsBelowThreshold == old(sumPsBelowThreshold) && countPsBelowThreshold == old(countPsBelowThreshold)
      ensures currentTargetSlope == old(currentTargetSlope) && targetSlopeHistory == old(targetSlopeHistory)
      ensures currentTargetSpendCurve == old(currentTargetSpendCurve) && targetSpendHistory == old(targetSpendHistory)
    {
      if isNewCampaign {
        if dailyBudget > MinDailyBudgetForHighInitialization {
          ps := MaxPs;
          previousPs := MaxPs;
          lastPositivePs := MaxPs;
        }
      }
      previousPs := lastPositivePs;
      var avgPsBelowThreshold := AvgDailyPsBelowThreshold();
      if avgPsBelowThreshold != PsInvalidValue {
        previousPs := avgPsBelowThreshold;
        lastPositivePs := avgPsBelowThreshold;
      }
      previousPs := Min(previousPs, MaxPs);
    }

    /** The history half of the rollover: non-empty day arrays move into
        history, and the day's arrays and accumulators restart empty. */
    method ArchiveDay()
      requires Valid()
      modifies this
      ensures Valid()
      ensures psHistory == PushIfNonEmpty(old(psHistory), old(todayPs)) && todayPs == []
      ensures spendHistory == PushIfNonEmpty(old(spendHistory), old(todaySpend)) && todaySpend == []
      ensures old(HistoryDaysNonEmpty()) ==> HistoryDaysNonEmpty()
      ensures sumPsBelowThreshold == 0.0 && countPsBelowThreshold == 0
      ensures ps == old(ps) && previousPs == old(previousPs) && lastPositivePs == old(lastPositivePs)
      ensures currentTargetSlope == old(currentTargetSlope) && targetSlopeHistory == old(targetSlopeHistory)
      ensures currentTargetSpendCurve == old(currentTargetSpendCurve) && targetSpendHistory == old(targetSpendHistory)
    {
      if |todayPs| > 0 {
        psHistory := psHistory + [todayPs];
      }
      todayPs := [];

      if |todaySpend| > 0 {
        spendHistory := spendHistory + [todaySpend];
      }
      todaySpend := [];

      sumPsBelowThreshold := 0.0;
      countPsBelowThreshold := 0;
    }

    /** Records one iteration's spend; nothing else changes. */
    method UpdateSpend(spend: real)
      requires Valid()
      modifies this
      ensures Valid()
      ensures todaySpend == old(todaySpend) + [spend]
      ensures ps == old(ps) && previousPs == old(previousPs) && lastPositivePs == old(lastPositivePs)
      ensures todayPs == old(todayPs) && psHistory == old(psHistory) && spendHistory == old(spendHistory)
      ensures sumPsBelowThreshold == old(sumPsBelowThreshold) && countPsBelowThreshold == old(countPsBelowThreshold)
      ensures currentTargetSlope == old(currentTargetSlope) && targetSlopeHistory == old(targetSlopeHistory)
      ensures currentTargetSpendCurve == old(currentTargetSpendCurve) && targetSpendHistory == old(targetSpendHistory)
    {
      todaySpend := todaySpend + [spend];
    }

    /** Stores a new pacing signal. The signal enters the below-threshold
        average exactly when less than 95% of the budget is spent so far
        today, so the day's spend must be recorded first. */
    method UpdatePacingSignal(p: real)
      requires Valid() && InUnit(p)
      modifies this
      ensures Valid()
      ensures previousPs == old(ps)
      ensures lastPositivePs == (if old(ps) > 0.0 then old(ps) else old(lastPositivePs))
      ensures ps == p && todayPs == old(todayPs) + [p]
      ensures var below := TodaySpend() / dailyBudget < BudgetSpendThreshold;
        && sumPsBelowThreshold == old(sumPsBelowThreshold) + (if below then p else 0.0)
        && countPsBelowThreshold == old(countPsBelowThreshold) + (if below then 1 else 0)
      ensures todaySpend == old(todaySpend) && psHistory == old(psHistory) && spendHistory == old(spendHistory)
      ensures currentTargetSlope == old(currentTargetSlope) && targetSlopeHistory == old(targetSlopeHistory)
      ensures currentTargetSpendCurve == old(currentTargetSpendCurve) && targetSpendHistory == old(targetSpendHistory)
    {
      previousPs := ps;
      if ps > 0.0 {
        lastPositivePs := ps;
      }
      ps := p;
      todayPs := todayPs + [p];

      if TodaySpend() / dailyBudget < BudgetSpendThreshold {
        sumPsBelowThreshold := sumPsBelowThreshold + ps;
        countPsBelowThreshold := countPsBelowThreshold + 1;
      }
    }

    /** Replaces the target slope, keeping the previous one in history when there was one. */
    method UpdateTargetSlopeCurve(curve: seq<real>)
      requires Valid()
      modifies this
      ensures Valid()
      ensures currentTargetSlope == curve
      ensures targetSlopeHistory == PushIfNonEmpty(old(targetSlopeHistory), old(currentTargetSlope))
      ensures currentTargetSpendCurve == old(currentTargetSpendCurve) && targetSpendHistory == old(targetSpendHistory)
      ensures ps == old(ps) && previousPs == old(previousPs) && lastPositivePs == old(lastPositivePs)
      ensures todayPs == old(todayPs) && todaySpend == old(todaySpend)
      ensures psHistory == old(psHistory) && spendHistory == old(spendHistory)
      ensures sumPsBelowThreshold == old(sumPsBelowThreshold) && countPsBelowThreshold == old(countPsBelowThreshold)
    {
      if |currentTargetSlope| > 0 {
        targetSlopeHistory := targetSlopeHistory + [currentTargetSlope];
      }
      currentTargetSlope := curve;
    }

    /** Replaces the target spend curve, keeping the previous one in history when there was one. */
    method UpdateTargetSpendCurve(curve: seq<real>)
      requires Valid()
      modifies this
      ensures Valid()
      ensures currentTargetSpendCurve == curve
      ensures targetSpendHistory == PushIfNonEmpty(old(targetSpendHistory), old(currentTargetSpendCurve))
      ensures currentTargetSlope == old(currentTargetSlope) && targetSlopeHistory == old(targetSlopeHistory)
      ensures ps == old(ps) && previousPs == old(previousPs) && lastPositivePs == old(lastPositivePs)
      ensures todayPs == old(todayPs) && todaySpend == old(todaySpend)
      ensures psHistory == old(psHistory) && spendHistory == old(spendHistory)
      ensures sumPsBelowThreshold == old(sumPsBelowThreshold) && countPsBelowThreshold == old(countPsBelowThreshold)
    {
      if |currentTargetSpendCurve| > 0 {
        targetSpendHistory := targetSpendHistory + [currentTargetSpendCurve];
      }
      currentTargetSpendCurve := curve;
    }
  }

  /** The accumulator average is -1 exactly when no signal was accumulated,
      and otherwise the mean of signals in [0, 1], hence itself in [0, 1]. */
  lemma AverageOfAccumulated(sum: real, count: nat)
    requires 0.0 <= sum <= count as real
    ensures count > 0 ==> InUnit(sum / count as real)
    ensures count > 0 ==> sum / count as real != PsInvalidValue
  {
    if count > 0 {
      var c := count as real;
      assert sum / c <= 1.0 by { assert sum <= 1.0 * c; }
    }
  }
}

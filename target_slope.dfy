/** The two target-spend strategies of the pacing controller
    (src/system/budget_pacing/mystique/target_slope.py): the 24 hourly
    target slopes, the cumulative target-spend curve built from them, the
    per-minute target, and the nonlinear strategy's day-end relearning. */
module TargetSlope {
  import opened MystiqueConstants
  import opened MystiqueUtils
  import opened TrackedCampaigns

  datatype StrategyType = Linear | NonLinear

  /** Tuning constants of the nonlinear strategy. */
  const MinSlope: real := 0.1
  const MaxSlope: real := 12.0
  const MaxUpdateFactor: real := 2.0
  const SmoothingFactor: real := 0.5
  const Epsilon: real := 0.0002

  /** Cumulative target spend (as a share of the daily budget) at the end
      of each hour: entry i is the sum of the first i+1 hourly slopes over 24. */
  function TargetSpendCurve(slope: seq<real>): (r: seq<real>)
    requires |slope| >= NumHoursPerDay
    ensures |r| == NumHoursPerDay
  {
    seq(NumHoursPerDay, i requires 0 <= i < NumHoursPerDay => Sum(slope[..i + 1]) / NumHoursPerDay as real)
  }

  /** The slope of the linear strategy: the same weight for every hour. */
  function UnitSlope(): (r: seq<real>)
    ensures |r| == NumHoursPerDay && forall i :: 0 <= i < |r| ==> r[i] == 1.0
  {
    seq(NumHoursPerDay, _ => 1.0)
  }

  /** Builds the cumulative curve with a running sum, one hour at a time. */
  method TargetSpendArray(slope: seq<real>) returns (spend: seq<real>)
    requires |slope| >= NumHoursPerDay
    ensures spend == TargetSpendCurve(slope)
  {
    spend := seq(NumHoursPerDay, _ => 0.0);
    var spendSum := 0.0;
    var i := 0;
    while i < |spend|
      invariant 0 <= i <= NumHoursPerDay && |spend| == NumHoursPerDay
      invariant spendSum == Sum(slope[..i]) / NumHoursPerDay as real
      invariant forall j :: 0 <= j < i ==> spend[j] == TargetSpendCurve(slope)[j]
    {
      assert slope[..i + 1][..i] == slope[..i];
      spendSum := spendSum + slope[i] / NumHoursPerDay as real;
      spend := spend[i := spendSum];
      i := i + 1;
    }
  }

  /** Each hour adds its own slope over 24 to the curve: the curve is the
      running sum of the slopes. */
  lemma CurveIsRunningSum(slope: seq<real>, i: nat)
    requires |slope| >= NumHoursPerDay && 0 < i < NumHoursPerDay
    ensures TargetSpendCurve(slope)[i] == TargetSpendCurve(slope)[i - 1] + slope[i] / NumHoursPerDay as real
    ensures TargetSpendCurve(slope)[0] == slope[0] / NumHoursPerDay as real
  {
    assert slope[..i + 1][..i] == slope[..i];
    assert slope[..1][..0] == [];
    assert Sum(slope[..1]) == slope[0];
  }

  /** With non-negative slopes the target never decreases over the day. */
  lemma CurveMonotone(slope: seq<real>, i: nat, j: nat)
    requires |slope| >= NumHoursPerDay && i <= j < NumHoursPerDay
    requires forall k :: 0 <= k < |slope| ==> 0.0 <= slope[k]
    ensures TargetSpendCurve(slope)[i] <= TargetSpendCurve(slope)[j]
  {
    var k := i;
    while k < j
      invariant i <= k <= j
      invariant TargetSpendCurve(slope)[i] <= TargetSpendCurve(slope)[k]
    {
      CurveIsRunningSum(slope, k + 1);
      k := k + 1;
    }
  }

  /** Sum of n ones is n. */
  lemma {:induction false} SumOfOnes(s: seq<real>)
    requires forall i :: 0 <= i < |s| ==> s[i] == 1.0
    ensures Sum(s) == |s| as real
  {
    if |s| > 0 {
      SumOfOnes(s[..|s| - 1]);
    }
  }

  /** The unit slope gives the straight-line curve (i+1)/24, ending at the
      whole budget. */
  lemma UnitCurve(i: nat)
    requires i < NumHoursPerDay
    ensures TargetSpendCurve(UnitSlope())[i] == (i + 1) as real / 24.0
  {
    SumOfOnes(UnitSlope()[..i + 1]);
  }

  /** Linear strategy, set-up: unit slope and its curve; a curve that was
      already there moves into history. */
  method InitializeSlope(c: TrackedCampaign)
    requires c.Valid()
    modifies c
    ensures c.Valid()
    ensures c.currentTargetSlope == UnitSlope()
    ensures c.currentTargetSpendCurve == TargetSpendCurve(UnitSlope())
    ensures c.targetSlopeHistory == PushIfNonEmpty(old(c.targetSlopeHistory), old(c.currentTargetSlope))
    ensures c.targetSpendHistory == PushIfNonEmpty(old(c.targetSpendHistory), old(c.currentTargetSpendCurve))
    ensures c.ps == old(c.ps) && c.previousPs == old(c.previousPs) && c.lastPositivePs == old(c.lastPositivePs)
    ensures c.todayPs == old(c.todayPs) && c.todaySpend == old(c.todaySpend)
    ensures c.psHistory == old(c.psHistory) && c.spendHistory == old(c.spendHistory)
    ensures c.sumPsBelowThreshold == old(c.sumPsBelowThreshold) && c.countPsBelowThreshold == old(c.countPsBelowThreshold)
  {
    var targetSlopeArray := UnitSlope();
    var targetSpendArray := TargetSpendArray(targetSlopeArray);
    c.UpdateTargetSlopeCurve(targetSlopeArray);
    c.UpdateTargetSpendCurve(targetSpendArray);
  }

  /** Linear strategy, day end: the same curves are set again, so each
      history gains a copy of the current curve and the curves stay. */
  method UpdateSlopeLinear(c: TrackedCampaign)
    requires c.Valid()
    modifies c
    ensures c.Valid()
    ensures c.currentTargetSlope == old(c.currentTargetSlope)
    ensures c.currentTargetSpendCurve == old(c.currentTargetSpendCurve)
    ensures c.targetSlopeHistory == PushIfNonEmpty(old(c.targetSlopeHistory), old(c.currentTargetSlope))
    ensures c.targetSpendHistory == PushIfNonEmpty(old(c.targetSpendHistory), old(c.currentTargetSpendCurve))
    ensures c.ps == old(c.ps) && c.previousPs == old(c.previousPs) && c.lastPositivePs == old(c.lastPositivePs)
    ensures c.todayPs == old(c.todayPs) && c.todaySpend == old(c.todaySpend)
    ensures c.psHistory == old(c.psHistory) && c.spendHistory == old(c.spendHistory)
    ensures c.sumPsBelowThreshold == old(c.sumPsBelowThreshold) && c.countPsBelowThreshold == old(c.countPsBelowThreshold)
  {
    var targetSlopeArray := c.currentTargetSlope;
    var targetSpendArray := c.currentTargetSpendCurve;
    c.UpdateTargetSlopeCurve(targetSlopeArray);
    c.UpdateTargetSpendCurve(targetSpendArray);
  }

  /** A target: the slope for the current minute and the share of the
      daily budget that should be spent by its end. */
  datatype Target = Target(slope: real, spend: real)

  /** Linear strategy: a flat slope and a straight-line spend target that
      reaches the whole budget at the day's last minute. */
  function LinearTarget(minuteInDay: nat): (t: Target)
    requires minuteInDay < NumIterationsPerDay
    ensures t.slope == 1.0
    ensures 0.0 < t.spend <= 1.0
    ensures t.spend * NumIterationsPerDay as real == (minuteInDay + 1) as real
  {
    var percentOfDayPassed := (minuteInDay + 1) as real / NumIterationsPerDay as real;
    var targetSlope := 1.0;
    Target(targetSlope, percentOfDayPassed * targetSlope)
  }

  /** Nonlinear strategy: the slope of the current hour, and a spend target
      that moves from the previous hour's curve value (0 in the first hour)
      toward the current hour's, reaching it in the hour's last minute. */
  function NonLinearTarget(slope: seq<real>, curve: seq<real>, minuteInDay: nat): (t: Target)
    requires |slope| == NumHoursPerDay && |curve| == NumHoursPerDay
    requires minuteInDay < NumIterationsPerDay
    ensures var hour := minuteInDay / NumIterationsPerHour;
      var from := if hour == 0 then 0.0 else curve[hour - 1];
      && t.slope == slope[hour]
      && (minuteInDay % NumIterationsPerHour == NumIterationsPerHour - 1 ==> t.spend == curve[hour])
      && (from <= curve[hour] ==> from < t.spend <= curve[hour] || from == t.spend == curve[hour])
  {
    var hour := minuteInDay / NumIterationsPerHour;
    var m := minuteInDay % NumIterationsPerHour + 1;
    var minuteInHour := if m < NumIterationsPerDay - 1 then m else NumIterationsPerDay - 1;
    if hour == 0 then
      InterpolationFromZero(curve[hour], minuteInHour);
      Target(slope[hour], curve[hour] * minuteInHour as real / NumIterationsPerHour as real)
    else
      InterpolationBetween(curve[hour - 1], curve[hour], minuteInHour);
      Target(slope[hour], curve[hour - 1] + (curve[hour] - curve[hour - 1]) * minuteInHour as real / NumIterationsPerHour as real)
  }

  /** Moving from a toward b by minuteInHour sixtieths stays between them and reaches b at 60. */
  lemma InterpolationBetween(a: real, b: real, minuteInHour: nat)
    requires 0 < minuteInHour <= NumIterationsPerHour
    ensures var t := a + (b - a) * minuteInHour as real / NumIterationsPerHour as real;
      && (a <= b ==> a < t <= b || a == t == b)
      && (minuteInHour == NumIterationsPerHour ==> t == b)
  {
    var m := minuteInHour as real;
    if a < b {
      var d := b - a;
      assert d * m <= d * 60.0;
      assert 0.0 < d * m;
      assert (b - a) * m / NumIterationsPerHour as real == d * m / 60.0;
    }
  }

  /** The first hour's form of the same interpolation, starting from 0. */
  lemma InterpolationFromZero(b: real, minuteInHour: nat)
    requires 0 < minuteInHour <= NumIterationsPerHour
    ensures var t := b * minuteInHour as real / NumIterationsPerHour as real;
      && (0.0 <= b ==> 0.0 < t <= b || 0.0 == t == b)
      && (minuteInHour == NumIterationsPerHour ==> t == b)
  {
    InterpolationBetween(0.0, b, minuteInHour);
  }

  /** On the unit slope the nonlinear target coincides with the linear one
      at every minute of the day. */
  lemma NonLinearAgreesWithLinearOnUnitSlope(minuteInDay: nat)
    requires minuteInDay < NumIterationsPerDay
    ensures NonLinearTarget(UnitSlope(), TargetSpendCurve(UnitSlope()), minuteInDay) == LinearTarget(minuteInDay)
  {
    var hour := minuteInDay / NumIterationsPerHour;
    var m := minuteInDay % NumIterationsPerHour;
    assert minuteInDay == hour * 60 + m;
    UnitCurve(hour);
    if hour > 0 {
      UnitCurve(hour - 1);
    }
  }

  /** Day-end update factor of one hour: the ratio of the day's average
      signal to the hour's, capped at 2, or 1 when either average is tiny.
      The ratio is computed before the guard, so a zero hourly average
      makes Python raise; hence the requires. */
  function UpdateFactor(avgDailyPs: real, avgHourlyPs: real): (r: real)
    requires avgHourlyPs != 0.0
    ensures 0.0 < r <= MaxUpdateFactor
    ensures avgDailyPs < Epsilon || avgHourlyPs < Epsilon ==> r == 1.0
    ensures avgDailyPs >= Epsilon && avgHourlyPs >= Epsilon ==>
      if avgDailyPs >= MaxUpdateFactor * avgHourlyPs then r == MaxUpdateFactor else r * avgHourlyPs == avgDailyPs
  {
    var dailyToHourlyPsRatio := avgDailyPs / avgHourlyPs;
    if avgDailyPs < Epsilon || avgHourlyPs < Epsilon then 1.0
    else
      RatioFacts(avgDailyPs, avgHourlyPs);
      Min(dailyToHourlyPsRatio, MaxUpdateFactor)
  }

  /** A larger hourly average never gets a larger factor: the hours that
      ran hot are slowed down at least as much as the cooler ones. */
  lemma UpdateFactorAntitone(avgDailyPs: real, h1: real, h2: real)
    requires avgDailyPs >= Epsilon && Epsilon <= h1 <= h2
    ensures UpdateFactor(avgDailyPs, h1) >= UpdateFactor(avgDailyPs, h2)
  {
    var r1, r2 := UpdateFactor(avgDailyPs, h1), UpdateFactor(avgDailyPs, h2);
    if avgDailyPs < MaxUpdateFactor * h1 {
      assert MaxUpdateFactor * h1 <= MaxUpdateFactor * h2;
      assert r1 * h1 == r2 * h2;
      assert (r1 - r2) * h1 == r2 * (h2 - h1);
      assert r2 * (h2 - h1) >= 0.0 by { assert r2 > 0.0; }
      NonNegativeFactor(r1 - r2, h1);
    }
  }

  /** A product with a positive factor has the sign of the other one. */
  lemma NonNegativeFactor(x: real, h: real)
    requires h > 0.0 && x * h >= 0.0
    ensures x >= 0.0
  {
  }

  lemma RatioFacts(a: real, b: real)
    requires a > 0.0 && b > 0.0
    ensures a / b > 0.0 && (a / b) * b == a
  {
  }

  /** Clamps a slope into [0.1, 12]. */
  function ClampSlope(x: real): (r: real)
    ensures MinSlope <= r <= MaxSlope
    ensures MinSlope <= x <= MaxSlope ==> r == x
  {
    var capped := Min(x, MaxSlope);
    if capped < MinSlope then MinSlope else capped
  }

  predicate SlopesInRange(s: seq<real>)
  {
    forall i :: 0 <= i < |s| ==> MinSlope <= s[i] <= MaxSlope
  }

  /** The hourly averages can drive the update: there is one for every
      slope (Python raises IndexError otherwise) and none is zero (Python
      raises ZeroDivisionError otherwise). */
  predicate HourlyAveragesUsable(numSlopes: nat, avgHourlyPs: seq<real>)
  {
    numSlopes <= |avgHourlyPs| && forall i :: 0 <= i < numSlopes ==> avgHourlyPs[i] != 0.0
  }

  /** Every slope scaled by its hour's update factor and clamped. */
  function UpdatedSlopes(slope: seq<real>, avgDailyPs: real, avgHourlyPs: seq<real>): (r: seq<real>)
    requires HourlyAveragesUsable(|slope|, avgHourlyPs)
    ensures |r| == |slope| && SlopesInRange(r)
  {
    seq(|slope|, i requires 0 <= i < |slope| => UpdatedSlope(slope[i], avgDailyPs, avgHourlyPs[i]))
  }

  /** One hour's slope scaled by its update factor and clamped: within
      [0.1, 12], and an in-range slope is kept when either average is tiny. */
  function UpdatedSlope(slope: real, avgDailyPs: real, avgHourlyPs: real): (r: real)
    requires avgHourlyPs != 0.0
    ensures MinSlope <= r <= MaxSlope
    ensures (avgDailyPs < Epsilon || avgHourlyPs < Epsilon) && MinSlope <= slope <= MaxSlope ==> r == slope
  {
    ClampSlope(slope * UpdateFactor(avgDailyPs, avgHourlyPs))
  }

  /** Index of the previous hour, wrapping from the first to the last. */
  function Prev(i: nat, n: nat): nat
    requires i < n
  {
    if i == 0 then n - 1 else i - 1
  }

  /** Circular three-point smoothing: a quarter of each neighbour plus half
      of the slope itself. */
  function Smoothed(s: seq<real>): (r: seq<real>)
    ensures |r| == |s|
  {
    seq(|s|, i requires 0 <= i < |s| =>
      SmoothingFactor / 2.0 * (s[Prev(i, |s|)] + s[(i + 1) % |s|]) + (1.0 - SmoothingFactor) * s[i])
  }

  /** Smoothing is a convex combination, so it keeps every slope within
      any bounds all slopes already respected. */
  lemma SmoothingKeepsBounds(s: seq<real>, lo: real, hi: real)
    requires forall i :: 0 <= i < |s| ==> lo <= s[i] <= hi
    ensures forall i :: 0 <= i < |s| ==> lo <= Smoothed(s)[i] <= hi
  {
    forall i | 0 <= i < |s|
      ensures lo <= Smoothed(s)[i] <= hi
    {
      var a, b, c := s[Prev(i, |s|)], s[(i + 1) % |s|], s[i];
      assert Smoothed(s)[i] == 0.25 * a + 0.25 * b + 0.5 * c;
    }
  }

  /** A day of equal slopes is left as it is by the smoothing. */
  lemma SmoothingFixesConstant(s: seq<real>, v: real)
    requires forall i :: 0 <= i < |s| ==> s[i] == v
    ensures Smoothed(s) == s
  {
    forall i | 0 <= i < |s|
      ensures Smoothed(s)[i] == s[i]
    {
      assert Smoothed(s)[i] == 0.25 * v + 0.25 * v + 0.5 * v;
    }
  }

  /** Nonlinear strategy, day end: relearns the slope from the day's
      pacing signals and smooths it. Only the slope curve is replaced (the
      old one moves into history); the spend curve is not recomputed.
      `ok` is false exactly when Python raises, in which case nothing
      changes. */
  method UpdateSlopeNonLinear(c: TrackedCampaign) returns (ok: bool)
    requires c.Valid()
    modifies c
    ensures c.Valid()
    ensures ok <==> old(HourlyAveragesUsable(|c.currentTargetSlope|, c.AvgHourlyPs()))
    ensures ok ==> c.currentTargetSlope == old(Smoothed(UpdatedSlopes(c.currentTargetSlope, c.AvgDailyPsBelowThreshold(), c.AvgHourlyPs())))
    ensures ok ==> c.targetSlopeHistory == PushIfNonEmpty(old(c.targetSlopeHistory), old(c.currentTargetSlope))
    ensures !ok ==> c.currentTargetSlope == old(c.currentTargetSlope) && c.targetSlopeHistory == old(c.targetSlopeHistory)
    ensures c.currentTargetSpendCurve == old(c.currentTargetSpendCurve) && c.targetSpendHistory == old(c.targetSpendHistory)
    ensures c.ps == old(c.ps) && c.previousPs == old(c.previousPs) && c.lastPositivePs == old(c.lastPositivePs)
    ensures c.todayPs == old(c.todayPs) && c.todaySpend == old(c.todaySpend)
    ensures c.psHistory == old(c.psHistory) && c.spendHistory == old(c.spendHistory)
    ensures c.sumPsBelowThreshold == old(c.sumPsBelowThreshold) && c.countPsBelowThreshold == old(c.countPsBelowThreshold)
  {
    var avgDailyPs := c.AvgDailyPsBelowThreshold();
    var avgHourlyPs := c.AvgHourlyPs();
    var slope := c.currentTargetSlope;
    ok := HourlyAveragesUsable(|slope|, avgHourlyPs);
    if !ok {
      return;
    }
    var updated := UpdateSlopes(slope, avgDailyPs, avgHourlyPs);
    var smoothed := SmoothSlopes(updated);
    c.UpdateTargetSlopeCurve(smoothed);
  }

  /** The update loop: each hour's slope is scaled and clamped in turn. */
  method UpdateSlopes(slope: seq<real>, avgDailyPs: real, avgHourlyPs: seq<real>) returns (r: seq<real>)
    requires HourlyAveragesUsable(|slope|, avgHourlyPs)
    ensures r == UpdatedSlopes(slope, avgDailyPs, avgHourlyPs)
  {
    ghost var target := UpdatedSlopes(slope, avgDailyPs, avgHourlyPs);
    r := slope;
    var i := 0;
    while i < |slope|
      invariant 0 <= i <= |slope| && |r| == |slope|
      invariant forall j :: 0 <= j < i ==> r[j] == target[j]
      invariant forall j :: i <= j < |slope| ==> r[j] == slope[j]
    {
      var updateFactor := UpdateFactor(avgDailyPs, avgHourlyPs[i]);
      var v := r[i] * updateFactor;
      v := Min(v, MaxSlope);
      v := if v < MinSlope then MinSlope else v;
      assert v == target[i];
      r := r[i := v];
      i := i + 1;
    }
  }

  /** The smoothing loop, reading the unsmoothed copy throughout. */
  method SmoothSlopes(s: seq<real>) returns (r: seq<real>)
    ensures r == Smoothed(s)
  {
    r := s;
    var length := |r|;
    var i := 0;
    while i < length
      invariant 0 <= i <= length && |r| == length == |s|
      invariant forall j :: 0 <= j < i ==> r[j] == Smoothed(s)[j]
    {
      r := r[i := SmoothingFactor / 2.0 * (s[Prev(i, length)] + s[(i + 1) % length]) + (1.0 - SmoothingFactor) * s[i]];
      i := i + 1;
    }
  }

  /** The relearned slope stays within [0.1, 12]. */
  lemma RelearnedSlopeInRange(slope: seq<real>, avgDailyPs: real, avgHourlyPs: seq<real>)
    requires HourlyAveragesUsable(|slope|, avgHourlyPs)
    ensures SlopesInRange(Smoothed(UpdatedSlopes(slope, avgDailyPs, avgHourlyPs)))
  {
    SmoothingKeepsBounds(UpdatedSlopes(slope, avgDailyPs, avgHourlyPs), MinSlope, MaxSlope);
  }
}

/** The per-day statistics the serving system aggregates over all its
    campaigns, running and retired (the `_calculate_*` functions of
    src/system/serving_system.py). Each campaign contributes its completed
    day `k` to the simulation day `dayStarted + k`. */
module DailyTotals {
  import opened Bids
  import opened MystiqueUtils
  import opened Campaigns

  /** What the aggregations read of one campaign. */
  datatype CampaignDays = CampaignDays(dayStarted: Option<nat>, spendHistory: seq<seq<real>>,
                                       auctionsWonHistory: seq<seq<nat>>, dailyBudget: real)

  /** Both histories cover the same days, and a campaign that never
      started has none (what `CampaignStatistics` keeps). */
  predicate WellFormed(c: CampaignDays)
  {
    |c.spendHistory| == |c.auctionsWonHistory| && (c.dayStarted.None? ==> |c.auctionsWonHistory| == 0)
  }

  /** The simulation day of the campaign's first completed day. */
  function Start(c: CampaignDays): nat
  {
    if c.dayStarted.Some? then c.dayStarted.value else 0
  }

  /** The number of completed days the loops visit: the length of the
      overspend history, one entry per day won auctions were recorded. */
  function DaysOf(c: CampaignDays): nat
  {
    |c.auctionsWonHistory|
  }

  /** The campaign's day `d` of the simulation, when it has one. */
  predicate Covers(c: CampaignDays, d: nat)
  {
    Start(c) <= d < Start(c) + DaysOf(c)
  }

  /** Each campaign's days fall inside the `days` entries of the result
      lists; otherwise the source indexes past their end. */
  predicate FitsIn(cs: seq<CampaignDays>, days: nat)
  {
    forall i :: 0 <= i < |cs| ==> WellFormed(cs[i]) && Start(cs[i]) + DaysOf(cs[i]) <= days
  }

  /** The quantities summed as reals: spend and overspend. */
  datatype Amount = Spend | Overspend

  /** The quantities summed as counts: won auctions and campaigns over
      budget. */
  datatype Count = Wins | OverBudget

  /** A campaign's amount on its own completed day `k`. */
  function DayAmount(c: CampaignDays, k: nat, m: Amount): (r: real)
    requires WellFormed(c) && k < DaysOf(c)
    ensures m == Spend ==> r == Sum(c.spendHistory[k])
    ensures m == Overspend ==> 0.0 <= r && (r > 0.0 <==> Sum(c.spendHistory[k]) > c.dailyBudget)
  {
    match m
    case Spend => Sum(c.spendHistory[k])
    case Overspend => OverspendValueDailyHistory(c.spendHistory, c.auctionsWonHistory, c.dailyBudget)[k]
  }

  /** A campaign's count on its own completed day `k`. */
  function DayCount(c: CampaignDays, k: nat, m: Count): (r: nat)
    requires WellFormed(c) && k < DaysOf(c)
    ensures m == Wins ==> r == SumNat(c.auctionsWonHistory[k])
    ensures m == OverBudget ==> (r == 1 <==> DayAmount(c, k, Overspend) > 0.0) && r <= 1
  {
    match m
    case Wins => SumNat(c.auctionsWonHistory[k])
    case OverBudget => if DayAmount(c, k, Overspend) > 0.0 then 1 else 0
  }

  /** What campaign `c` adds to simulation day `d`. */
  function AmountOn(c: CampaignDays, d: nat, m: Amount): real
    requires WellFormed(c)
  {
    if Covers(c, d) then DayAmount(c, d - Start(c), m) else 0.0
  }

  function CountOn(c: CampaignDays, d: nat, m: Count): nat
    requires WellFormed(c)
  {
    if Covers(c, d) then DayCount(c, d - Start(c), m) else 0
  }

  /** Simulation day `d`'s total over the campaigns `cs`. */
  function TotalOn(cs: seq<CampaignDays>, d: nat, m: Amount): real
    requires forall i :: 0 <= i < |cs| ==> WellFormed(cs[i])
  {
    if |cs| == 0 then 0.0 else TotalOn(cs[..|cs| - 1], d, m) + AmountOn(cs[|cs| - 1], d, m)
  }

  function CountTotalOn(cs: seq<CampaignDays>, d: nat, m: Count): nat
    requires forall i :: 0 <= i < |cs| ==> WellFormed(cs[i])
  {
    if |cs| == 0 then 0 else CountTotalOn(cs[..|cs| - 1], d, m) + CountOn(cs[|cs| - 1], d, m)
  }

  /** A campaign's amount over its first `n` completed days. */
  function CampaignAmount(c: CampaignDays, n: nat, m: Amount): real
    requires WellFormed(c) && n <= DaysOf(c)
  {
    if n == 0 then 0.0 else CampaignAmount(c, n - 1, m) + DayAmount(c, n - 1, m)
  }

  /** The amount of all campaigns over all their completed days. */
  function GrandTotal(cs: seq<CampaignDays>, m: Amount): real
    requires forall i :: 0 <= i < |cs| ==> WellFormed(cs[i])
  {
    if |cs| == 0 then 0.0 else GrandTotal(cs[..|cs| - 1], m) + CampaignAmount(cs[|cs| - 1], DaysOf(cs[|cs| - 1]), m)
  }

  function CampaignCount(c: CampaignDays, n: nat, m: Count): nat
    requires WellFormed(c) && n <= DaysOf(c)
  {
    if n == 0 then 0 else CampaignCount(c, n - 1, m) + DayCount(c, n - 1, m)
  }

  function GrandCount(cs: seq<CampaignDays>, m: Count): nat
    requires forall i :: 0 <= i < |cs| ==> WellFormed(cs[i])
  {
    if |cs| == 0 then 0 else GrandCount(cs[..|cs| - 1], m) + CampaignCount(cs[|cs| - 1], DaysOf(cs[|cs| - 1]), m)
  }

  /** One more campaign adds its share to every day's total. */
  lemma TotalOnStep(cs: seq<CampaignDays>, i: nat, d: nat, m: Amount)
    requires i < |cs| && forall j :: 0 <= j < |cs| ==> WellFormed(cs[j])
    ensures TotalOn(cs[..i + 1], d, m) == TotalOn(cs[..i], d, m) + AmountOn(cs[i], d, m)
  {
    assert cs[..i + 1][..i] == cs[..i];
  }

  lemma CountTotalOnStep(cs: seq<CampaignDays>, i: nat, d: nat, m: Count)
    requires i < |cs| && forall j :: 0 <= j < |cs| ==> WellFormed(cs[j])
    ensures CountTotalOn(cs[..i + 1], d, m) == CountTotalOn(cs[..i], d, m) + CountOn(cs[i], d, m)
  {
    assert cs[..i + 1][..i] == cs[..i];
  }

  /** `_calculate_total_spend_per_day` (m = Spend) and
      `_calculate_total_overspend_per_day` (m = Overspend): a list of
      `days` zeros to which every campaign adds each completed day's amount
      at the entry of its simulation day. */
  method PerDayTotals(cs: seq<CampaignDays>, days: nat, m: Amount) returns (r: seq<real>)
    requires FitsIn(cs, days)
    ensures |r| == days
    ensures forall d :: 0 <= d < days ==> r[d] == TotalOn(cs, d, m)
  {
    var a := new real[days](_ => 0.0);
    var i := 0;
    while i < |cs|
      invariant i <= |cs|
      invariant forall d :: 0 <= d < days ==> a[d] == TotalOn(cs[..i], d, m)
    {
      var c := cs[i];
      var k := 0;
      while k < DaysOf(c)
        invariant k <= DaysOf(c)
        invariant forall d :: 0 <= d < days ==>
          a[d] == TotalOn(cs[..i], d, m) + (if Start(c) <= d < Start(c) + k then DayAmount(c, d - Start(c), m) else 0.0)
      {
        a[Start(c) + k] := a[Start(c) + k] + DayAmount(c, k, m);
        k := k + 1;
      }
      forall d | 0 <= d < days ensures a[d] == TotalOn(cs[..i + 1], d, m) {
        TotalOnStep(cs, i, d, m);
      }
      i := i + 1;
    }
    assert cs[..|cs|] == cs;
    r := a[..];
  }

  /** `_calculate_total_wins_per_day` (m = Wins) and
      `_calculate_num_over_budget_campaigns_per_day` (m = OverBudget), the
      same accumulation over counts. */
  method PerDayCounts(cs: seq<CampaignDays>, days: nat, m: Count) returns (r: seq<nat>)
    requires FitsIn(cs, days)
    ensures |r| == days
    ensures forall d :: 0 <= d < days ==> r[d] == CountTotalOn(cs, d, m)
  {
    var a := new nat[days](_ => 0);
    var i := 0;
    while i < |cs|
      invariant i <= |cs|
      invariant forall d :: 0 <= d < days ==> a[d] == CountTotalOn(cs[..i], d, m)
    {
      var c := cs[i];
      var k := 0;
      while k < DaysOf(c)
        invariant k <= DaysOf(c)
        invariant forall d :: 0 <= d < days ==>
          a[d] == CountTotalOn(cs[..i], d, m) + (if Start(c) <= d < Start(c) + k then DayCount(c, d - Start(c), m) else 0)
      {
        a[Start(c) + k] := a[Start(c) + k] + DayCount(c, k, m);
        k := k + 1;
      }
      forall d | 0 <= d < days ensures a[d] == CountTotalOn(cs[..i + 1], d, m) {
        CountTotalOnStep(cs, i, d, m);
      }
      i := i + 1;
    }
    assert cs[..|cs|] == cs;
    r := a[..];
  }

  /** The totals of simulation days `0 .. n - 1`. */
  function TotalsUpTo(cs: seq<CampaignDays>, n: nat, m: Amount): real
    requires forall i :: 0 <= i < |cs| ==> WellFormed(cs[i])
  {
    if n == 0 then 0.0 else TotalsUpTo(cs, n - 1, m) + TotalOn(cs, n - 1, m)
  }

  /** What campaign `c` adds to simulation days `0 .. n - 1`. */
  function WindowUpTo(c: CampaignDays, n: nat, m: Amount): real
    requires WellFormed(c)
  {
    if n == 0 then 0.0 else WindowUpTo(c, n - 1, m) + AmountOn(c, n - 1, m)
  }

  /** How many of the campaign's completed days fall before day `n`. */
  function DaysBefore(c: CampaignDays, n: nat): (k: nat)
    ensures k <= DaysOf(c)
  {
    if n <= Start(c) then 0 else if n - Start(c) < DaysOf(c) then n - Start(c) else DaysOf(c)
  }

  lemma {:induction false} SumOfTotals(cs: seq<CampaignDays>, r: seq<real>, m: Amount)
    requires forall i :: 0 <= i < |cs| ==> WellFormed(cs[i])
    requires forall d :: 0 <= d < |r| ==> r[d] == TotalOn(cs, d, m)
    ensures Sum(r) == TotalsUpTo(cs, |r|, m)
  {
    if |r| > 0 {
      SumOfTotals(cs, r[..|r| - 1], m);
    }
  }

  lemma {:induction false} TotalsSplit(cs: seq<CampaignDays>, n: nat, m: Amount)
    requires |cs| > 0 && forall i :: 0 <= i < |cs| ==> WellFormed(cs[i])
    ensures TotalsUpTo(cs, n, m) == TotalsUpTo(cs[..|cs| - 1], n, m) + WindowUpTo(cs[|cs| - 1], n, m)
  {
    if n > 0 {
      TotalsSplit(cs, n - 1, m);
    }
  }

  lemma {:induction false} WindowIsCampaignAmount(c: CampaignDays, n: nat, m: Amount)
    requires WellFormed(c)
    ensures WindowUpTo(c, n, m) == CampaignAmount(c, DaysBefore(c, n), m)
  {
    if n > 0 {
      WindowIsCampaignAmount(c, n - 1, m);
    }
  }

  lemma {:induction false} TotalsAreGrandTotal(cs: seq<CampaignDays>, n: nat, m: Amount)
    requires FitsIn(cs, n)
    ensures TotalsUpTo(cs, n, m) == GrandTotal(cs, m)
  {
    if |cs| == 0 {
      if n > 0 {
        TotalsAreGrandTotal(cs, n - 1, m);
      }
    } else {
      TotalsSplit(cs, n, m);
      TotalsAreGrandTotal(cs[..|cs| - 1], n, m);
      WindowIsCampaignAmount(cs[|cs| - 1], n, m);
    }
  }

  /** The overall row's total: the per-day totals add up to the amount of
      every campaign over all its completed days, whatever days they fell
      on. */
  lemma PerDayTotalsConserve(cs: seq<CampaignDays>, days: nat, m: Amount, r: seq<real>)
    requires FitsIn(cs, days)
    requires |r| == days && forall d :: 0 <= d < days ==> r[d] == TotalOn(cs, d, m)
    ensures Sum(r) == GrandTotal(cs, m)
  {
    SumOfTotals(cs, r, m);
    TotalsAreGrandTotal(cs, days, m);
  }

  function CountsUpTo(cs: seq<CampaignDays>, n: nat, m: Count): nat
    requires forall i :: 0 <= i < |cs| ==> WellFormed(cs[i])
  {
    if n == 0 then 0 else CountsUpTo(cs, n - 1, m) + CountTotalOn(cs, n - 1, m)
  }

  function CountWindowUpTo(c: CampaignDays, n: nat, m: Count): nat
    requires WellFormed(c)
  {
    if n == 0 then 0 else CountWindowUpTo(c, n - 1, m) + CountOn(c, n - 1, m)
  }

  lemma {:induction false} SumOfCounts(cs: seq<CampaignDays>, r: seq<nat>, m: Count)
    requires forall i :: 0 <= i < |cs| ==> WellFormed(cs[i])
    requires forall d :: 0 <= d < |r| ==> r[d] == CountTotalOn(cs, d, m)
    ensures SumNat(r) == CountsUpTo(cs, |r|, m)
  {
    if |r| > 0 {
      SumOfCounts(cs, r[..|r| - 1], m);
    }
  }

  lemma {:induction false} CountsSplit(cs: seq<CampaignDays>, n: nat, m: Count)
    requires |cs| > 0 && forall i :: 0 <= i < |cs| ==> WellFormed(cs[i])
    ensures CountsUpTo(cs, n, m) == CountsUpTo(cs[..|cs| - 1], n, m) + CountWindowUpTo(cs[|cs| - 1], n, m)
  {
    if n > 0 {
      CountsSplit(cs, n - 1, m);
    }
  }

  lemma {:induction false} WindowIsCampaignCount(c: CampaignDays, n: nat, m: Count)
    requires WellFormed(c)
    ensures CountWindowUpTo(c, n, m) == CampaignCount(c, DaysBefore(c, n), m)
  {
    if n > 0 {
      WindowIsCampaignCount(c, n - 1, m);
    }
  }

  lemma {:induction false} CountsAreGrandCount(cs: seq<CampaignDays>, n: nat, m: Count)
    requires FitsIn(cs, n)
    ensures CountsUpTo(cs, n, m) == GrandCount(cs, m)
  {
    if |cs| == 0 {
      if n > 0 {
        CountsAreGrandCount(cs, n - 1, m);
      }
    } else {
      CountsSplit(cs, n, m);
      CountsAreGrandCount(cs[..|cs| - 1], n, m);
      WindowIsCampaignCount(cs[|cs| - 1], n, m);
    }
  }

  /** The overall row's count: the per-day counts add up to the count of
      every campaign over all its completed days. */
  lemma PerDayCountsConserve(cs: seq<CampaignDays>, days: nat, m: Count, r: seq<nat>)
    requires FitsIn(cs, days)
    requires |r| == days && forall d :: 0 <= d < days ==> r[d] == CountTotalOn(cs, d, m)
    ensures SumNat(r) == GrandCount(cs, m)
  {
    SumOfCounts(cs, r, m);
    CountsAreGrandCount(cs, days, m);
  }

  /** `_calculate_cpm_per_day`: the cost per thousand won auctions of each
      day, None for a day without wins. */
  function CpmPerDay(spendPerDay: seq<real>, winsPerDay: seq<nat>): (r: seq<Option<real>>)
    requires |spendPerDay| <= |winsPerDay|
    ensures |r| == |spendPerDay|
    ensures forall d :: 0 <= d < |r| ==>
      && (r[d].None? <==> winsPerDay[d] == 0)
      && (r[d].Some? ==> r[d].value * winsPerDay[d] as real == 1000.0 * spendPerDay[d])
  {
    seq(|spendPerDay|, d requires 0 <= d < |spendPerDay| =>
      if winsPerDay[d] > 0 then Some(1000.0 * spendPerDay[d] / winsPerDay[d] as real) else None)
  }

  /** `_calculate_overall_cpm`: the cost per thousand won auctions over
      the whole simulation; None where the source divides by zero wins. */
  function OverallCpm(spendPerDay: seq<real>, winsPerDay: seq<nat>): (r: Option<real>)
    ensures r.None? <==> SumNat(winsPerDay) == 0
    ensures r.Some? ==> r.value * SumNat(winsPerDay) as real == 1000.0 * Sum(spendPerDay)
  {
    var wins := SumNat(winsPerDay);
    if wins == 0 then None else Some(1000.0 * Sum(spendPerDay) / wins as real)
  }

  /** The overall CPM from the per-day lists is the CPM of all campaigns'
      spend over all their won auctions. */
  lemma OverallCpmOfAllCampaigns(cs: seq<CampaignDays>, days: nat, spendPerDay: seq<real>, winsPerDay: seq<nat>)
    requires FitsIn(cs, days)
    requires |spendPerDay| == days && forall d :: 0 <= d < days ==> spendPerDay[d] == TotalOn(cs, d, Spend)
    requires |winsPerDay| == days && forall d :: 0 <= d < days ==> winsPerDay[d] == CountTotalOn(cs, d, Wins)
    ensures OverallCpm(spendPerDay, winsPerDay)
            == if GrandCount(cs, Wins) == 0 then None
               else Some(1000.0 * GrandTotal(cs, Spend) / GrandCount(cs, Wins) as real)
  {
    PerDayTotalsConserve(cs, days, Spend, spendPerDay);
    PerDayCountsConserve(cs, days, Wins, winsPerDay);
  }
}

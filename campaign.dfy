/** Advertising campaigns and their bucketed daily statistics
    (src/system/campaign.py). */
module Campaigns {
  import opened Bids
  import opened Auction
  import opened MystiqueUtils
  import Configuration

  /** Sum of a list of counters. */
  function SumNat(s: seq<nat>): nat
  {
    if |s| == 0 then 0 else SumNat(s[..|s| - 1]) + s[|s| - 1]
  }

  /** `n` zero entries, as `[0] * n` builds them. */
  function Zeros(n: nat): (r: seq<real>)
    ensures |r| == n && Sum(r) == 0.0
    ensures forall i :: 0 <= i < n ==> r[i] == 0.0
  {
    if n == 0 then [] else
      var r := Zeros(n - 1) + [0.0];
      assert r[..n - 1] == Zeros(n - 1);
      r
  }

  /** `n` zero counters. */
  function ZeroCounts(n: nat): (r: seq<nat>)
    ensures |r| == n && SumNat(r) == 0
    ensures forall i :: 0 <= i < n ==> r[i] == 0
  {
    if n == 0 then [] else
      var r := ZeroCounts(n - 1) + [0];
      assert r[..n - 1] == ZeroCounts(n - 1);
      r
  }

  /** Adding x to one entry adds x to the sum. */
  lemma {:induction false} SumUpdate(s: seq<real>, i: nat, x: real)
    requires i < |s|
    ensures Sum(s[i := s[i] + x]) == Sum(s) + x
  {
    var t := s[i := s[i] + x];
    var n := |s|;
    if i == n - 1 {
      assert t[..n - 1] == s[..n - 1];
    } else {
      assert t[..n - 1] == s[..n - 1][i := s[i] + x];
      SumUpdate(s[..n - 1], i, x);
    }
  }

  lemma {:induction false} SumNatUpdate(s: seq<nat>, i: nat, x: nat)
    requires i < |s|
    ensures SumNat(s[i := s[i] + x]) == SumNat(s) + x
  {
    var t := s[i := s[i] + x];
    var n := |s|;
    if i == n - 1 {
      assert t[..n - 1] == s[..n - 1];
    } else {
      assert t[..n - 1] == s[..n - 1][i := s[i] + x];
      SumNatUpdate(s[..n - 1], i, x);
    }
  }

  /** A number of per-day entries the statistics can be configured with:
      the minute of the day divided by the minutes per entry must stay a
      valid index, which holds exactly when the entries divide the day. */
  predicate EntriesDivideDay(entriesPerDay: nat)
  {
    0 < entriesPerDay <= Configuration.NumIterationsPerDay
    && Configuration.NumIterationsPerDay % entriesPerDay == 0
  }

  /** Bucket of a minute: the minute divided by the minutes per entry. */
  function EntryIndex(minuteInDay: nat, entriesPerDay: nat): (i: nat)
    requires EntriesDivideDay(entriesPerDay) && minuteInDay < Configuration.NumIterationsPerDay
    ensures i < entriesPerDay
    ensures i * (Configuration.NumIterationsPerDay / entriesPerDay) <= minuteInDay
            < (i + 1) * (Configuration.NumIterationsPerDay / entriesPerDay)
  {
    var per := Configuration.NumIterationsPerDay / entriesPerDay;
    var i := minuteInDay / per;
    EntryIndexFacts(minuteInDay, entriesPerDay, per, i);
    i
  }

  lemma EntryIndexFacts(minuteInDay: nat, n: nat, per: nat, i: nat)
    requires EntriesDivideDay(n) && minuteInDay < Configuration.NumIterationsPerDay
    requires per == Configuration.NumIterationsPerDay / n && i == minuteInDay / per
    ensures per > 0 && i < n && i * per <= minuteInDay < (i + 1) * per
  {
    assert per * n == Configuration.NumIterationsPerDay;
    assert per > 0;
    assert i * per <= minuteInDay < i * per + per;
  }

  /** `s` with `x` added at index `k`; unchanged when `k` is out of range. */
  function AddAt(s: seq<real>, k: nat, x: real): (r: seq<real>)
    ensures |r| == |s|
    ensures forall j :: 0 <= j < |s| ==> r[j] == s[j] + (if j == k then x else 0.0)
  {
    if k < |s| then s[k := s[k] + x] else s
  }

  /** `s` with `x` added at index `k`; unchanged when `k` is out of range. */
  function AddCountAt(s: seq<nat>, k: nat, x: nat): (r: seq<nat>)
    ensures |r| == |s|
    ensures forall j :: 0 <= j < |s| ==> r[j] == s[j] + (if j == k then x else 0)
  {
    if k < |s| then s[k := s[k] + x] else s
  }

  /** Two additions at the same index are one addition of their sum. */
  lemma AddAtTwice(s: seq<real>, k: nat, a: real, b: real)
    ensures AddAt(AddAt(s, k, a), k, b) == AddAt(s, k, a + b)
  {
  }

  /** Two additions at the same index are one addition of their sum. */
  lemma AddCountAtTwice(s: seq<nat>, k: nat, a: nat, b: nat)
    ensures AddCountAt(AddCountAt(s, k, a), k, b) == AddCountAt(s, k, a + b)
  {
  }

  /** Today's part of a campaign's statistics: the running total and the
      spend and win buckets. */
  datatype Today = Today(total: real, spend: seq<real>, wins: seq<nat>)

  function TodayOf(s: CampaignStatistics): Today
    reads s`totalSpentToday, s`todaySpend, s`auctionsWonToday
  {
    Today(s.totalSpentToday, s.todaySpend, s.auctionsWonToday)
  }

  /** `payment` and `won` auctions charged to the spend bucket `spendIndex`
      and the win bucket `winIndex`. */
  function Charge(t: Today, payment: real, won: nat, spendIndex: nat, winIndex: nat): Today
  {
    Today(t.total + payment, AddAt(t.spend, spendIndex, payment), AddCountAt(t.wins, winIndex, won))
  }

  /** Charges to the same buckets accumulate. */
  lemma ChargeTwice(t: Today, a: real, b: real, m: nat, n: nat, spendIndex: nat, winIndex: nat)
    ensures Charge(Charge(t, a, m, spendIndex, winIndex), b, n, spendIndex, winIndex)
            == Charge(t, a + b, m + n, spendIndex, winIndex)
  {
    AddAtTwice(t.spend, spendIndex, a, b);
    AddCountAtTwice(t.wins, winIndex, m, n);
  }

  /** Charging nothing changes nothing. */
  lemma ChargeNothing(t: Today, spendIndex: nat, winIndex: nat)
    ensures Charge(t, 0.0, 0, spendIndex, winIndex) == t
  {
    assert AddAt(t.spend, spendIndex, 0.0) == t.spend;
    assert AddCountAt(t.wins, winIndex, 0) == t.wins;
  }

  /** A charge keeps the total equal to the sum of the spend buckets and
      adds to the wins exactly the auctions won. */
  lemma ChargeKeepsTotal(t: Today, payment: real, won: nat, spendIndex: nat, winIndex: nat)
    requires t.total == Sum(t.spend) && spendIndex < |t.spend| && winIndex < |t.wins|
    ensures var c := Charge(t, payment, won, spendIndex, winIndex);
      c.total == Sum(c.spend) && SumNat(c.wins) == SumNat(t.wins) + won
      && |c.spend| == |t.spend| && |c.wins| == |t.wins|
  {
    SumUpdate(t.spend, spendIndex, payment);
    SumNatUpdate(t.wins, winIndex, won);
  }

  /** Sum of the spend of a list of days. */
  function SumDays(h: seq<seq<real>>): real
  {
    if |h| == 0 then 0.0 else SumDays(h[..|h| - 1]) + Sum(h[|h| - 1])
  }

  /** Sum of the wins of a list of days. */
  function SumDayCounts(h: seq<seq<nat>>): nat
  {
    if |h| == 0 then 0 else SumDayCounts(h[..|h| - 1]) + SumNat(h[|h| - 1])
  }

  /** The state of a campaign's statistics that the day rollover reads or
      writes. */
  datatype StatsView = StatsView(spendHistory: seq<seq<real>>, auctionsWonHistory: seq<seq<nat>>,
                                 todaySpend: seq<real>, auctionsWonToday: seq<nat>, totalSpentToday: real,
                                 daysLeftToRun: int, dayStarted: Option<nat>, dayEnded: Option<nat>,
                                 minutesAliveToday: nat)

  /** The statistics `v` after the rollover at the end of day `days`. */
  function RolledOver(v: StatsView, days: nat, numSpendEntriesPerDay: nat, numWinEntriesPerDay: nat): StatsView
  {
    var left := v.daysLeftToRun - 1;
    StatsView(v.spendHistory + [v.todaySpend], v.auctionsWonHistory + [v.auctionsWonToday],
              Zeros(numSpendEntriesPerDay), ZeroCounts(numWinEntriesPerDay), 0.0, left,
              if v.dayStarted.None? then Some(days) else v.dayStarted,
              if left == 0 then Some(days) else v.dayEnded, 0)
  }

  /** A rollover moves exactly today's buckets into the histories: each
      history grows by one day, the earlier days stay, and no spend or win
      is lost or made up; today starts from empty buckets. */
  lemma {:induction false} RolloverKeepsTotals(v: StatsView, days: nat, numSpendEntriesPerDay: nat, numWinEntriesPerDay: nat)
    ensures var r := RolledOver(v, days, numSpendEntriesPerDay, numWinEntriesPerDay);
      && |r.spendHistory| == |v.spendHistory| + 1 && r.spendHistory[..|v.spendHistory|] == v.spendHistory
      && |r.auctionsWonHistory| == |v.auctionsWonHistory| + 1
      && r.auctionsWonHistory[..|v.auctionsWonHistory|] == v.auctionsWonHistory
      && SumDays(r.spendHistory) + Sum(r.todaySpend) == SumDays(v.spendHistory) + Sum(v.todaySpend)
      && SumDayCounts(r.auctionsWonHistory) + SumNat(r.auctionsWonToday)
         == SumDayCounts(v.auctionsWonHistory) + SumNat(v.auctionsWonToday)
  {
    var r := RolledOver(v, days, numSpendEntriesPerDay, numWinEntriesPerDay);
    assert r.spendHistory[..|v.spendHistory|] == v.spendHistory;
    assert r.auctionsWonHistory[..|v.auctionsWonHistory|] == v.auctionsWonHistory;
  }

  /** The start day is set by the first rollover and kept by every later
      one; the end day is set by the rollover that uses up the run period;
      the minutes alive restart at 0 with the new day. */
  lemma RolloverDays(v: StatsView, days: nat, numSpendEntriesPerDay: nat, numWinEntriesPerDay: nat)
    ensures var r := RolledOver(v, days, numSpendEntriesPerDay, numWinEntriesPerDay);
      && r.dayStarted.Some?
      && (v.dayStarted.Some? ==> r.dayStarted == v.dayStarted)
      && (v.daysLeftToRun == 1 ==> r.dayEnded == Some(days))
      && (v.daysLeftToRun != 1 ==> r.dayEnded == v.dayEnded)
      && r.minutesAliveToday == 0
  {
  }

  /** The statistics of one campaign: spend and wins of today per bucket,
      the completed days' buckets, and the run-period bookkeeping. The
      numbers of buckets per day come from configuration values the
      simulation does not define, so they are construction parameters. */
  class CampaignStatistics {
    const numSpendEntriesPerDay: nat
    const numWinEntriesPerDay: nat
    var spendHistory: seq<seq<real>>
    var todaySpend: seq<real>
    var totalSpentToday: real
    var auctionsWonHistory: seq<seq<nat>>
    var auctionsWonToday: seq<nat>
    var daysLeftToRun: int
    var dayStarted: Option<nat>
    var dayEnded: Option<nat>
    /** Minutes of today the campaign took part in auctions. The source
        increments this attribute without ever creating it; the model
        creates it at 0 and restarts it with the day's other statistics. */
    var minutesAliveToday: nat

    /** Today's buckets have the configured sizes, the running total is
        their sum, both histories cover the same days, and a campaign with
        a completed day knows its start day. Reads only the fields below:
        the bid cache, the run-period counter and the minutes alive can
        change without touching it. */
    ghost predicate Valid()
      reads `todaySpend, `auctionsWonToday, `totalSpentToday, `spendHistory, `auctionsWonHistory, `dayStarted
    {
      && EntriesDivideDay(numSpendEntriesPerDay) && EntriesDivideDay(numWinEntriesPerDay)
      && |todaySpend| == numSpendEntriesPerDay && |auctionsWonToday| == numWinEntriesPerDay
      && totalSpentToday == Sum(todaySpend)
      && |spendHistory| == |auctionsWonHistory|
      && (dayStarted.None? ==> |auctionsWonHistory| == 0)
    }

    /** The rollover-relevant state as a value. */
    ghost function View(): StatsView
      reads this
    {
      StatsView(spendHistory, auctionsWonHistory, todaySpend, auctionsWonToday, totalSpentToday,
                daysLeftToRun, dayStarted, dayEnded, minutesAliveToday)
    }

    constructor (runPeriod: int, numSpendEntriesPerDay: nat, numWinEntriesPerDay: nat)
      requires EntriesDivideDay(numSpendEntriesPerDay) && EntriesDivideDay(numWinEntriesPerDay)
      ensures Valid()
      ensures this.numSpendEntriesPerDay == numSpendEntriesPerDay && this.numWinEntriesPerDay == numWinEntriesPerDay
      ensures spendHistory == [] && auctionsWonHistory == []
      ensures todaySpend == Zeros(numSpendEntriesPerDay) && auctionsWonToday == ZeroCounts(numWinEntriesPerDay)
      ensures totalSpentToday == 0.0 && minutesAliveToday == 0
      ensures daysLeftToRun == runPeriod && dayStarted == None && dayEnded == None
    {
      this.numSpendEntriesPerDay := numSpendEntriesPerDay;
      this.numWinEntriesPerDay := numWinEntriesPerDay;
      spendHistory, auctionsWonHistory := [], [];
      daysLeftToRun := runPeriod;
      dayStarted, dayEnded := None, None;
      minutesAliveToday := 0;
      todaySpend := Zeros(numSpendEntriesPerDay);
      auctionsWonToday := ZeroCounts(numWinEntriesPerDay);
      totalSpentToday := 0.0;
    }

    /** A won auction: the payment goes into the minute's spend bucket and
        the running total, and the minute's win bucket counts one more. */
    method Update(payment: real, minuteInDay: nat)
      requires Valid() && minuteInDay < Configuration.NumIterationsPerDay
      modifies `todaySpend, `totalSpentToday, `auctionsWonToday
      ensures Valid()
      ensures TodayOf(this) == Charge(old(TodayOf(this)), payment, 1, EntryIndex(minuteInDay, numSpendEntriesPerDay),
                                      EntryIndex(minuteInDay, numWinEntriesPerDay))
      ensures SumNat(auctionsWonToday) == old(SumNat(auctionsWonToday)) + 1
    {
      var i := EntryIndex(minuteInDay, numSpendEntriesPerDay);
      SumUpdate(todaySpend, i, payment);
      todaySpend := todaySpend[i := todaySpend[i] + payment];
      totalSpentToday := totalSpentToday + payment;
      var w := EntryIndex(minuteInDay, numWinEntriesPerDay);
      SumNatUpdate(auctionsWonToday, w, 1);
      auctionsWonToday := auctionsWonToday[w := auctionsWonToday[w] + 1];
    }

    /** Day rollover: the first rollover records the start day, every one
        counts a day off the run period (recording the end day when it
        reaches 0) and moves today's buckets into the histories. */
    method PrepareForNewDay(days: nat)
      requires Valid()
      modifies this
      ensures Valid()
      ensures View() == RolledOver(old(View()), days, numSpendEntriesPerDay, numWinEntriesPerDay)
    {
      if dayStarted.None? {
        dayStarted := Some(days);
      }
      daysLeftToRun := daysLeftToRun - 1;
      if daysLeftToRun == 0 {
        dayEnded := Some(days);
      }
      spendHistory := spendHistory + [todaySpend];
      auctionsWonHistory := auctionsWonHistory + [auctionsWonToday];
      ResetTodayStats();
    }

    /** Fresh zero buckets, a zero total and no minute alive yet. */
    method ResetTodayStats()
      requires EntriesDivideDay(numSpendEntriesPerDay) && EntriesDivideDay(numWinEntriesPerDay)
      requires |spendHistory| == |auctionsWonHistory| && (dayStarted.None? ==> |auctionsWonHistory| == 0)
      modifies `todaySpend, `auctionsWonToday, `totalSpentToday, `minutesAliveToday
      ensures Valid()
      ensures todaySpend == Zeros(numSpendEntriesPerDay) && auctionsWonToday == ZeroCounts(numWinEntriesPerDay)
      ensures totalSpentToday == 0.0 && minutesAliveToday == 0
    {
      todaySpend := Zeros(numSpendEntriesPerDay);
      auctionsWonToday := ZeroCounts(numWinEntriesPerDay);
      totalSpentToday := 0.0;
      minutesAliveToday := 0;
    }
  }

  /** Why the campaign constructor raises. */
  datatype CampaignError = InvalidMaxBid | ZeroRunPeriod | DailyBudgetBelowMinimalBid

  /** Python's truthiness of an optional maximal bid: absent and 0 are false. */
  predicate HasMaxBid(maxBid: Option<real>)
  {
    maxBid.Some? && maxBid.value != 0.0
  }

  /** The constructor's checks in their order: a set maximal bid below the
      minimal bid, then the division by the run period, then the daily
      budget's lower bound. */
  function ConstructionError(totalBudget: real, runPeriod: int, maxBid: Option<real>): (r: Option<CampaignError>)
    ensures r == None <==>
      && (HasMaxBid(maxBid) ==> maxBid.value >= Configuration.CampaignMinimalBid)
      && runPeriod != 0
      && totalBudget / runPeriod as real >= Configuration.CampaignMinimalBid
    ensures r == Some(InvalidMaxBid) <==> HasMaxBid(maxBid) && maxBid.value < Configuration.CampaignMinimalBid
  {
    if HasMaxBid(maxBid) && maxBid.value < Configuration.CampaignMinimalBid then Some(InvalidMaxBid)
    else if runPeriod == 0 then Some(ZeroRunPeriod)
    else if totalBudget / runPeriod as real < Configuration.CampaignMinimalBid then Some(DailyBudgetBelowMinimalBid)
    else None
  }

  /** A bid amount drawn for campaign `id`: capped at the maximal bid when
      one is set, and no bid at all below the minimal bid. */
  function BidFor(id: string, maxBid: Option<real>, amount: real): (r: Option<Bid>)
    ensures r.Some? ==> r.value.campaignId == id && r.value.amount >= Configuration.CampaignMinimalBid
    ensures r.Some? && HasMaxBid(maxBid) ==> r.value.amount == Min(amount, maxBid.value)
    ensures r.Some? && !HasMaxBid(maxBid) ==> r.value.amount == amount
    ensures r.None? <==> (if HasMaxBid(maxBid) then Min(amount, maxBid.value) else amount) < Configuration.CampaignMinimalBid
  {
    var bidAmount := if HasMaxBid(maxBid) then Min(amount, maxBid.value) else amount;
    if bidAmount < Configuration.CampaignMinimalBid then None else Some(Bid(id, bidAmount))
  }

  /** The cache a bid is drawn from: the current one, or the refill when
      it is empty. */
  function DrawSource(cache: seq<real>, refill: seq<real>): seq<real>
  {
    if |cache| == 0 then refill else cache
  }

  /** Every targeted feature of the user has one of the wanted values. */
  predicate Matches(targetingGroups: map<string, set<int>>, userProperties: map<string, int>)
  {
    forall feature :: feature in targetingGroups ==>
      feature in userProperties && userProperties[feature] in targetingGroups[feature]
  }

  /** A campaign without targeting matches every user, and dropping targeted
      features never turns a matching user away. */
  lemma MatchesFewerFeatures(targetingGroups: map<string, set<int>>, kept: set<string>,
                             userProperties: map<string, int>)
    ensures Matches(map[], userProperties)
    ensures Matches(targetingGroups, userProperties) ==>
      Matches(map f | f in targetingGroups && f in kept :: targetingGroups[f], userProperties)
  {
  }

  class Campaign {
    const id: string
    const maxBid: Option<real>
    const totalBudget: real
    const dailyBudget: real
    const targetingGroups: map<string, set<int>>
    const stats: CampaignStatistics
    /** Amounts drawn ahead of time; the last one is used next. */
    var bidsCache: seq<real>

    ghost predicate Valid()
      reads stats`todaySpend, stats`auctionsWonToday, stats`totalSpentToday
      reads stats`spendHistory, stats`auctionsWonHistory, stats`dayStarted
    {
      && stats.Valid()
      && dailyBudget >= Configuration.CampaignMinimalBid
      && (HasMaxBid(maxBid) ==> maxBid.value >= Configuration.CampaignMinimalBid)
    }

    constructor (id: string, totalBudget: real, runPeriod: int, targetingGroups: map<string, set<int>>,
                 maxBid: Option<real>, numSpendEntriesPerDay: nat, numWinEntriesPerDay: nat)
      requires ConstructionError(totalBudget, runPeriod, maxBid) == None
      requires EntriesDivideDay(numSpendEntriesPerDay) && EntriesDivideDay(numWinEntriesPerDay)
      ensures Valid() && fresh(stats)
      ensures this.id == id && this.maxBid == maxBid && this.totalBudget == totalBudget
      ensures this.dailyBudget * runPeriod as real == totalBudget
      ensures this.targetingGroups == targetingGroups && bidsCache == []
      ensures stats.daysLeftToRun == runPeriod && stats.dayStarted == None
      ensures stats.spendHistory == [] && stats.auctionsWonHistory == [] && stats.totalSpentToday == 0.0
    {
      this.id := id;
      this.maxBid := maxBid;
      this.totalBudget := totalBudget;
      this.dailyBudget := totalBudget / runPeriod as real;
      this.targetingGroups := targetingGroups;
      stats := new CampaignStatistics(runPeriod, numSpendEntriesPerDay, numWinEntriesPerDay);
      bidsCache := [];
    }

    /** Takes the last cached amount (after refilling an empty cache with
        `refill`, the draw the simulation samples) and turns it into a bid. */
    method Bid(refill: seq<real>) returns (b: Option<Bid>)
      requires |bidsCache| > 0 || |refill| > 0
      modifies `bidsCache
      ensures var source := DrawSource(old(bidsCache), refill);
        && bidsCache == source[..|source| - 1]
        && b == BidFor(id, maxBid, source[|source| - 1])
    {
      if |bidsCache| == 0 {
        bidsCache := refill;
      }
      var bidAmount := bidsCache[|bidsCache| - 1];
      bidsCache := bidsCache[..|bidsCache| - 1];
      if HasMaxBid(maxBid) {
        bidAmount := Min(bidAmount, maxBid.value);
      }
      if bidAmount < Configuration.CampaignMinimalBid {
        return None;
      }
      return Some(Bids.Bid(id, bidAmount));
    }

    /** A won auction is charged to the statistics. */
    method Pay(amount: real, minuteInDay: nat)
      requires Valid() && minuteInDay < Configuration.NumIterationsPerDay
      modifies stats`todaySpend, stats`totalSpentToday, stats`auctionsWonToday
      ensures Valid()
      ensures TodayOf(stats) == Charge(old(TodayOf(stats)), amount, 1, EntryIndex(minuteInDay, stats.numSpendEntriesPerDay),
                                       EntryIndex(minuteInDay, stats.numWinEntriesPerDay))
      ensures SumNat(stats.auctionsWonToday) == old(SumNat(stats.auctionsWonToday)) + 1
    {
      stats.Update(amount, minuteInDay);
    }

    /** Whether the auction's user is in the campaign's target groups: the
        targeted features are checked one by one and the first mismatch
        answers no. */
    method IsRelevantAuction(auction: AuctionFP) returns (r: bool)
      ensures r <==> Matches(targetingGroups, auction.userProperties)
      ensures |targetingGroups| == 0 ==> r
    {
      var userProperties := auction.userProperties;
      var remaining := targetingGroups.Keys;
      while remaining != {}
        invariant remaining <= targetingGroups.Keys
        invariant forall f :: f in targetingGroups && f !in remaining ==>
          f in userProperties && userProperties[f] in targetingGroups[f]
        decreases |remaining|
      {
        var feature :| feature in remaining;
        if feature !in userProperties || userProperties[feature] !in targetingGroups[feature] {
          return false;
        }
        remaining := remaining - {feature};
      }
      return true;
    }
  }

  /** Cost per thousand won auctions of each completed day; None for a
      day without wins. */
  function CpmDailyHistory(spendHistory: seq<seq<real>>, auctionsWonHistory: seq<seq<nat>>): (r: seq<Option<real>>)
    requires |spendHistory| == |auctionsWonHistory|
    ensures |r| == |auctionsWonHistory|
    ensures forall d :: 0 <= d < |r| ==>
      && (r[d].None? <==> SumNat(auctionsWonHistory[d]) == 0)
      && (r[d].Some? ==> r[d].value * SumNat(auctionsWonHistory[d]) as real == 1000.0 * Sum(spendHistory[d]))
  {
    seq(|auctionsWonHistory|, d requires 0 <= d < |auctionsWonHistory| =>
      var numWinsInDay := SumNat(auctionsWonHistory[d]);
      if numWinsInDay > 0 then Some(1000.0 * Sum(spendHistory[d]) / numWinsInDay as real) else None)
  }

  /** Share of the daily budget spent on each completed day. */
  function BudgetUtilizationDailyHistory(spendHistory: seq<seq<real>>, auctionsWonHistory: seq<seq<nat>>,
                                         dailyBudget: real): (r: seq<real>)
    requires |spendHistory| == |auctionsWonHistory| && dailyBudget > 0.0
    ensures |r| == |auctionsWonHistory|
    ensures forall d :: 0 <= d < |r| ==> r[d] * dailyBudget == Sum(spendHistory[d])
  {
    seq(|auctionsWonHistory|, d requires 0 <= d < |auctionsWonHistory| => Sum(spendHistory[d]) / dailyBudget)
  }

  /** What each completed day spent beyond the daily budget, 0 when it
      stayed within it. */
  function OverspendValueDailyHistory(spendHistory: seq<seq<real>>, auctionsWonHistory: seq<seq<nat>>,
                                      dailyBudget: real): (r: seq<real>)
    requires |spendHistory| == |auctionsWonHistory|
    ensures |r| == |auctionsWonHistory|
    ensures forall d :: 0 <= d < |r| ==>
      && 0.0 <= r[d]
      && (r[d] > 0.0 <==> Sum(spendHistory[d]) > dailyBudget)
      && (r[d] > 0.0 ==> r[d] + dailyBudget == Sum(spendHistory[d]))
      && Sum(spendHistory[d]) <= dailyBudget + r[d]
  {
    seq(|auctionsWonHistory|, d requires 0 <= d < |auctionsWonHistory| =>
      var spentInDay := Sum(spendHistory[d]);
      if spentInDay > dailyBudget then spentInDay - dailyBudget else 0.0)
  }
}

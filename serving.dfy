/** The serving system (src/system/serving_system.py): the registry of
    running and retired campaigns, the tracked part of the bids for an
    auction, charging winners, and the per-minute and per-day updates,
    including forwarding spend to the pacing controller. */
module Serving {
  import opened Bids
  import opened Auction
  import opened Campaigns
  import opened MystiqueUtils
  import Configuration
  import Mystique
  import TrackedCampaigns
  import TargetSlope
  import Clock
  import DailyTotals

  datatype AddError = NoneCampaign | DuplicateId

  /** `order` lists the keys of `m` once each: a dictionary's order. */
  ghost predicate OrderOf(m: map<string, Campaign>, order: seq<string>)
  {
    && (forall id :: id in m <==> id in order)
    && (forall i, j :: 0 <= i < j < |order| ==> order[i] != order[j])
  }

  /** The value of `id` in `m`, or 0 when absent (`dict.get(id, 0)`). */
  function Get(m: map<string, real>, id: string): real
  {
    if id in m then m[id] else 0.0
  }

  /** Python's `round` of a number to an integer: the nearest integer, and
      the even one of two equally near. */
  function RoundHalfEven(x: real): (r: int)
    ensures -0.5 <= x - r as real <= 0.5
    ensures x - r as real == 0.5 || x - r as real == -0.5 ==> r % 2 == 0
  {
    var f := x.Floor;
    var frac := x - f as real;
    if frac < 0.5 then f else if frac > 0.5 then f + 1 else if f % 2 == 0 then f else f + 1
  }

  /** No other integer is as near, or, when as near, also even. */
  lemma RoundHalfEvenUnique(x: real, n: int)
    requires -0.5 <= x - n as real <= 0.5
    requires x - n as real == 0.5 || x - n as real == -0.5 ==> n % 2 == 0
    ensures n == RoundHalfEven(x)
  {
  }

  /** `_calculate_number_of_untracked_bids`: the given share of the relevant
      campaigns, rounded as Python rounds. The share is a configuration
      value the configuration file does not define, so it is a parameter. */
  function NumberOfUntrackedBids(factorUntrackedBids: real, numRelevantCampaigns: nat): (r: int)
    ensures -0.5 <= factorUntrackedBids * numRelevantCampaigns as real - r as real <= 0.5
    ensures factorUntrackedBids >= 0.0 ==> r >= 0
  {
    RoundHalfEven(factorUntrackedBids * numRelevantCampaigns as real)
  }

  /** What the per-day aggregations read of a campaign. */
  function DaysOfCampaign(c: Campaign): (r: DailyTotals.CampaignDays)
    reads c.stats
    requires c.Valid()
    ensures DailyTotals.WellFormed(r) && r.dailyBudget == c.dailyBudget
  {
    DailyTotals.CampaignDays(c.stats.dayStarted, c.stats.spendHistory, c.stats.auctionsWonHistory, c.dailyBudget)
  }

  /** The campaigns of `m` in the order `order`, as the aggregations read
      them. */
  function CampaignDaysIn(m: map<string, Campaign>, order: seq<string>): (r: seq<DailyTotals.CampaignDays>)
    reads set id | id in m :: m[id].stats
    requires forall id :: id in order ==> id in m && m[id].Valid()
    ensures |r| == |order| && forall i :: 0 <= i < |r| ==> DailyTotals.WellFormed(r[i])
  {
    if |order| == 0 then [] else CampaignDaysIn(m, order[..|order| - 1]) + [DaysOfCampaign(m[order[|order| - 1]])]
  }

  /** No two campaigns of `m` share a statistics object. */
  ghost predicate StatsDistinct(m: map<string, Campaign>)
  {
    forall a, b :: a in m && b in m && a != b ==> m[a].stats != m[b].stats
  }

  /** No campaign of `m` shares a statistics object with one of `n`. */
  ghost predicate StatsApart(m: map<string, Campaign>, n: map<string, Campaign>)
  {
    forall a, b :: a in m && b in n ==> m[a].stats != n[b].stats
  }

  /** A drawn amount as offered: scaled by the pacing signal when a pacing
      controller is present. */
  function Paced(amount: real, signal: Option<real>): real
  {
    if signal.Some? then amount * signal.value else amount
  }

  /** What one tracked campaign adds to an auction's bids. There is none
      when the auction is not relevant to it, when it has spent its daily
      budget, when the draw gave no bid, or when the paced amount is not
      positive; otherwise it is the drawn bid at the paced amount. */
  function TrackedBid(relevant: bool, spentToday: real, dailyBudget: real, drawn: Option<Bid>,
                      signal: Option<real>): (r: Option<Bid>)
    ensures r.Some? <==>
      relevant && spentToday < dailyBudget && drawn.Some? && Paced(drawn.value.amount, signal) > 0.0
    ensures r.Some? ==> r.value.campaignId == drawn.value.campaignId
  {
    if !relevant || spentToday >= dailyBudget || drawn.None? then None
    else
      var amount := Paced(drawn.value.amount, signal);
      if amount > 0.0 then Some(Bid(drawn.value.campaignId, amount)) else None
  }

  /** With a signal in [0, 1], an offered bid is positive and no larger
      than the drawn one; a relevant campaign under budget with a drawn bid
      offers it exactly when there is no signal or the signal is positive. */
  lemma PacedOfferInRange(relevant: bool, spentToday: real, dailyBudget: real, drawn: Option<Bid>,
                          signal: Option<real>)
    requires drawn.Some? ==> drawn.value.amount >= Configuration.CampaignMinimalBid
    requires signal.Some? ==> TrackedCampaigns.InUnit(signal.value)
    ensures var r := TrackedBid(relevant, spentToday, dailyBudget, drawn, signal);
      r.Some? ==> 0.0 < r.value.amount <= drawn.value.amount
    ensures relevant && spentToday < dailyBudget && drawn.Some? ==>
      (TrackedBid(relevant, spentToday, dailyBudget, drawn, signal).Some? <==> signal.None? || signal.value > 0.0)
  {
    if drawn.Some? && signal.Some? {
      var a, p := drawn.value.amount, signal.value;
      assert a * p <= a * 1.0;
      assert p > 0.0 ==> a * p > 0.0;
      assert p == 0.0 ==> a * p == 0.0;
    }
  }

  /** The bids present among the offers, in order. */
  function Present(offers: seq<Option<Bid>>): (bids: seq<Bid>)
    ensures |bids| <= |offers|
  {
    if |offers| == 0 then []
    else Present(offers[..|offers| - 1]) + (if offers[|offers| - 1].Some? then [offers[|offers| - 1].value] else [])
  }

  /** Every present bid is one of the offers. */
  lemma {:induction false} PresentFromOffers(offers: seq<Option<Bid>>)
    ensures forall b :: b in Present(offers) ==> Some(b) in offers
  {
    if |offers| > 0 {
      var init := offers[..|offers| - 1];
      PresentFromOffers(init);
      forall b | b in Present(offers) ensures Some(b) in offers {
        if b in Present(init) {
          var k :| 0 <= k < |init| && init[k] == Some(b);
          assert offers[k] == Some(b);
        } else {
          assert offers[|offers| - 1] == Some(b);
        }
      }
    }
  }

  /** One more offer adds its bid, when present, at the end. */
  lemma PresentSnoc(offers: seq<Option<Bid>>, offer: Option<Bid>)
    ensures Present(offers + [offer]) == Present(offers) + (if offer.Some? then [offer.value] else [])
  {
    assert (offers + [offer])[..|offers|] == offers;
  }

  /** The number of true flags. */
  function CountTrue(flags: seq<bool>): (n: nat)
    ensures n <= |flags|
  {
    if |flags| == 0 then 0 else CountTrue(flags[..|flags| - 1]) + (if flags[|flags| - 1] then 1 else 0)
  }

  /** One more flag counts when it is true. */
  lemma CountTrueSnoc(flags: seq<bool>, flag: bool)
    ensures CountTrue(flags + [flag]) == CountTrue(flags) + (if flag then 1 else 0)
  {
    assert (flags + [flag])[..|flags|] == flags;
  }

  /** Which campaigns, in registration order, the auction's user is
      targeted by. */
  function Relevance(m: map<string, Campaign>, order: seq<string>, userProperties: map<string, int>): (r: seq<bool>)
    requires forall k :: 0 <= k < |order| ==> order[k] in m
    ensures |r| == |order|
    ensures forall k :: 0 <= k < |order| ==> (r[k] <==> Matches(m[order[k]].targetingGroups, userProperties))
  {
    seq(|order|, k requires 0 <= k < |order| => Matches(m[order[k]].targetingGroups, userProperties))
  }

  /** There are never more offered bids than relevant campaigns: a
      campaign only offers when the auction is relevant to it, while a
      relevant campaign that has spent its budget is still counted. */
  lemma {:induction false} FewerBidsThanRelevant(offers: seq<Option<Bid>>, relevant: seq<bool>)
    requires |offers| == |relevant|
    requires forall k :: 0 <= k < |offers| && offers[k].Some? ==> relevant[k]
    ensures |Present(offers)| <= CountTrue(relevant)
  {
    if |offers| > 0 {
      FewerBidsThanRelevant(offers[..|offers| - 1], relevant[..|relevant| - 1]);
    }
  }

  /** The amount drawn next from a cache, refilled when empty. */
  function Drawn(cache: seq<real>, refill: seq<real>): real
    requires |cache| > 0 || |refill| > 0
  {
    var source := DrawSource(cache, refill);
    source[|source| - 1]
  }

  /** The cache left after a draw. */
  function AfterDraw(cache: seq<real>, refill: seq<real>): seq<real>
    requires |cache| > 0 || |refill| > 0
  {
    var source := DrawSource(cache, refill);
    source[..|source| - 1]
  }

  /** `offer` is what campaign `c`, having spent `spentToday`, offered
      when drawing from `oldCache` (or from `refill` when it is empty) and
      pacing with `signal`; `newCache` is what the draw left, or `oldCache`
      when the campaign did not draw. Only the campaign's constant fields
      are read. */
  predicate Offered(c: Campaign, relevant: bool, offer: Option<Bid>, oldCache: seq<real>, newCache: seq<real>,
                    spentToday: real, refill: seq<real>, signal: Option<real>)
  {
    && (|oldCache| > 0 || |refill| > 0)
    && offer == TrackedBid(relevant, spentToday, c.dailyBudget, BidFor(c.id, c.maxBid, Drawn(oldCache, refill)), signal)
    && newCache == if relevant && spentToday < c.dailyBudget then AfterDraw(oldCache, refill) else oldCache
  }

  /** The campaigns of `m` in the order `order` lists them. */
  function InOrder(m: map<string, Campaign>, order: seq<string>): (cs: seq<Campaign>)
    requires forall k :: 0 <= k < |order| ==> order[k] in m
    ensures |cs| == |order| && forall k :: 0 <= k < |order| ==> cs[k] == m[order[k]]
  {
    seq(|order|, k requires 0 <= k < |order| => m[order[k]])
  }

  /** The bid caches of `cs`, in order. */
  ghost function Caches(cs: seq<Campaign>): (r: seq<seq<real>>)
    reads set k | 0 <= k < |cs| :: cs[k]
    ensures |r| == |cs| && forall k :: 0 <= k < |cs| ==> r[k] == cs[k].bidsCache
  {
    if |cs| == 0 then [] else Caches(cs[..|cs| - 1]) + [cs[|cs| - 1].bidsCache]
  }

  /** What each campaign of `cs` has spent today, in order. */
  ghost function SpentToday(cs: seq<Campaign>): (r: seq<real>)
    reads set k | 0 <= k < |cs| :: cs[k].stats
    ensures |r| == |cs| && forall k :: 0 <= k < |cs| ==> r[k] == cs[k].stats.totalSpentToday
  {
    if |cs| == 0 then [] else SpentToday(cs[..|cs| - 1]) + [cs[|cs| - 1].stats.totalSpentToday]
  }

  /** The first `n` campaigns of `cs` have each taken their turn: `rel`
      says whether the auction was relevant to each, `offers` what each
      offered and `after` what each bid cache then held, starting from the
      caches `before` and the amounts spent `spent`. */
  ghost predicate OfferedEach(cs: seq<Campaign>, rel: seq<bool>, offers: seq<Option<Bid>>, before: seq<seq<real>>,
                              after: seq<seq<real>>, spent: seq<real>, refills: map<string, seq<real>>,
                              userProperties: map<string, int>, signals: map<Campaign, Option<real>>, n: nat)
  {
    && n <= |rel| && n <= |offers| && n <= |after| && n <= |cs| && n <= |before| && n <= |spent|
    && (n > 0 ==>
         && cs[n - 1].id in refills && cs[n - 1] in signals
         && rel[n - 1] == Matches(cs[n - 1].targetingGroups, userProperties)
         && Offered(cs[n - 1], rel[n - 1], offers[n - 1], before[n - 1], after[n - 1], spent[n - 1],
                    refills[cs[n - 1].id], signals[cs[n - 1]])
         && OfferedEach(cs, rel, offers, before, after, spent, refills, userProperties, signals, n - 1))
  }

  /** The record of the first `n` turns does not look past them. */
  lemma {:induction false} OfferedEachPrefix(cs: seq<Campaign>, rel: seq<bool>, offers: seq<Option<Bid>>,
                                             before: seq<seq<real>>, after: seq<seq<real>>, spent: seq<real>,
                                             refills: map<string, seq<real>>, userProperties: map<string, int>,
                                             signals: map<Campaign, Option<real>>, n: nat,
                                             rel': seq<bool>, offers': seq<Option<Bid>>, after': seq<seq<real>>)
    requires OfferedEach(cs, rel, offers, before, after, spent, refills, userProperties, signals, n)
    requires n <= |rel'| && n <= |offers'| && n <= |after'|
    requires rel'[..n] == rel[..n] && offers'[..n] == offers[..n] && after'[..n] == after[..n]
    ensures OfferedEach(cs, rel', offers', before, after', spent, refills, userProperties, signals, n)
    decreases n
  {
    if n > 0 {
      assert rel'[n - 1] == rel'[..n][n - 1] && offers'[n - 1] == offers'[..n][n - 1] && after'[n - 1] == after'[..n][n - 1];
      assert rel[n - 1] == rel[..n][n - 1] && offers[n - 1] == offers[..n][n - 1] && after[n - 1] == after[..n][n - 1];
      assert rel'[..n - 1] == rel'[..n][..n - 1] && rel[..n - 1] == rel[..n][..n - 1];
      assert offers'[..n - 1] == offers'[..n][..n - 1] && offers[..n - 1] == offers[..n][..n - 1];
      assert after'[..n - 1] == after'[..n][..n - 1] && after[..n - 1] == after[..n][..n - 1];
      OfferedEachPrefix(cs, rel, offers, before, after, spent, refills, userProperties, signals, n - 1, rel', offers', after');
    }
  }

  /** One more campaign's turn extends the record. */
  lemma OfferedEachSnoc(cs: seq<Campaign>, rel: seq<bool>, offers: seq<Option<Bid>>, before: seq<seq<real>>,
                        after: seq<seq<real>>, spent: seq<real>, refills: map<string, seq<real>>,
                        userProperties: map<string, int>, signals: map<Campaign, Option<real>>,
                        relevant: bool, offer: Option<Bid>, cache: seq<real>)
    requires |rel| == |offers| == |after|
    requires OfferedEach(cs, rel, offers, before, after, spent, refills, userProperties, signals, |offers|)
    requires |offers| < |cs| && |offers| < |before| && |offers| < |spent|
    requires cs[|offers|].id in refills && cs[|offers|] in signals
    requires relevant == Matches(cs[|offers|].targetingGroups, userProperties)
    requires Offered(cs[|offers|], relevant, offer, before[|offers|], cache, spent[|offers|], refills[cs[|offers|].id],
                     signals[cs[|offers|]])
    ensures OfferedEach(cs, rel + [relevant], offers + [offer], before, after + [cache], spent, refills,
                        userProperties, signals, |offers| + 1)
  {
    var n := |offers|;
    assert (rel + [relevant])[..n] == rel[..n] && (offers + [offer])[..n] == offers[..n];
    assert (after + [cache])[..n] == after[..n];
    OfferedEachPrefix(cs, rel, offers, before, after, spent, refills, userProperties, signals, n,
                      rel + [relevant], offers + [offer], after + [cache]);
  }

  /** Each campaign's turn, index by index. */
  lemma {:induction false} OfferedEachAt(cs: seq<Campaign>, rel: seq<bool>, offers: seq<Option<Bid>>,
                                         before: seq<seq<real>>, after: seq<seq<real>>, spent: seq<real>,
                                         refills: map<string, seq<real>>, userProperties: map<string, int>,
                                         signals: map<Campaign, Option<real>>, n: nat)
    requires OfferedEach(cs, rel, offers, before, after, spent, refills, userProperties, signals, n)
    ensures forall k :: 0 <= k < n ==>
      && cs[k].id in refills && cs[k] in signals
      && rel[k] == Matches(cs[k].targetingGroups, userProperties)
      && Offered(cs[k], rel[k], offers[k], before[k], after[k], spent[k], refills[cs[k].id], signals[cs[k]])
    decreases n
  {
    if n > 0 {
      OfferedEachAt(cs, rel, offers, before, after, spent, refills, userProperties, signals, n - 1);
    }
  }

  /** Listed once each and with statistics of their own, the campaigns of
      `m` are distinct objects, and distinct from those of `n`. */
  lemma InOrderDistinct(m: map<string, Campaign>, order: seq<string>, n: map<string, Campaign>)
    requires OrderOf(m, order) && StatsDistinct(m) && StatsApart(m, n)
    ensures var cs := InOrder(m, order);
      && (forall k, j :: 0 <= k < |cs| && 0 <= j < |cs| && k != j ==> cs[k] != cs[j])
      && (forall k, id :: 0 <= k < |cs| && id in n ==> cs[k] != n[id])
  {
  }

  /** Each campaign of `m` is registered under its own id, lies in `repr`
      with its statistics, and is well formed. */
  ghost predicate Owned(m: map<string, Campaign>, repr: set<Campaign>, statsRepr: set<CampaignStatistics>)
    reads statsRepr`todaySpend, statsRepr`auctionsWonToday, statsRepr`totalSpentToday
    reads statsRepr`spendHistory, statsRepr`auctionsWonHistory, statsRepr`dayStarted
  {
    forall id :: id in m ==> m[id].id == id && m[id] in repr && m[id].stats in statsRepr && m[id].Valid()
  }

  /** The registry of running (`tracked`) and retired (`retired`) campaigns:
      two dictionaries with disjoint keys, every campaign well formed with
      statistics of its own, and no retired campaign with days left. */
  ghost predicate Registry(tracked: map<string, Campaign>, trackedOrder: seq<string>,
                           retired: map<string, Campaign>, retiredOrder: seq<string>,
                           repr: set<Campaign>, statsRepr: set<CampaignStatistics>)
    reads statsRepr`todaySpend, statsRepr`auctionsWonToday, statsRepr`totalSpentToday
    reads statsRepr`spendHistory, statsRepr`auctionsWonHistory, statsRepr`dayStarted, statsRepr`daysLeftToRun
  {
    && OrderOf(tracked, trackedOrder) && OrderOf(retired, retiredOrder)
    && tracked.Keys !! retired.Keys
    && Owned(tracked, repr, statsRepr) && Owned(retired, repr, statsRepr)
    && (forall id :: id in retired ==> retired[id].stats.daysLeftToRun == 0)
    && StatsDistinct(tracked) && StatsDistinct(retired)
    && StatsApart(tracked, retired)
  }

  lemma AddKeepsOrder(m: map<string, Campaign>, order: seq<string>, id: string, c: Campaign)
    requires OrderOf(m, order) && id !in m
    ensures OrderOf(m[id := c], order + [id])
  {
  }

  /** Registering a well-formed campaign under a new id, with statistics
      outside the footprint, keeps the registry well formed. */
  lemma RegisterKeepsRegistry(tracked: map<string, Campaign>, trackedOrder: seq<string>,
                              retired: map<string, Campaign>, retiredOrder: seq<string>,
                              repr: set<Campaign>, statsRepr: set<CampaignStatistics>, c: Campaign)
    requires Registry(tracked, trackedOrder, retired, retiredOrder, repr, statsRepr)
    requires c.Valid() && c.stats !in statsRepr && c.id !in tracked && c.id !in retired
    ensures Registry(tracked[c.id := c], trackedOrder + [c.id], retired, retiredOrder, repr + {c}, statsRepr + {c.stats})
  {
    var t := tracked[c.id := c];
    var repr', statsRepr' := repr + {c}, statsRepr + {c.stats};
    AddKeepsOrder(tracked, trackedOrder, c.id, c);
    forall id | id in t ensures t[id].id == id && t[id] in repr' && t[id].stats in statsRepr' && t[id].Valid() {
    }
    forall id | id in retired
      ensures retired[id].id == id && retired[id] in repr' && retired[id].stats in statsRepr' && retired[id].Valid()
    {
    }
    forall a, b | a in t && b in t && a != b ensures t[a].stats != t[b].stats {
      if a != c.id && b != c.id {
        assert t[a] == tracked[a] && t[b] == tracked[b];
      }
    }
    forall a, b | a in t && b in retired ensures t[a].stats != retired[b].stats {
      if a != c.id {
        assert t[a] == tracked[a];
      }
    }
  }

  /** An order of the keys of `m` lists each of them once, so it is as
      long as `m` is large. */
  lemma {:induction false} OrderSize(m: map<string, Campaign>, order: seq<string>)
    requires OrderOf(m, order)
    ensures |m| == |order|
  {
    if |order| > 0 {
      var last, init := order[|order| - 1], order[..|order| - 1];
      forall id ensures id in m - {last} <==> id in init {
        if id in init {
          var k :| 0 <= k < |init| && init[k] == id;
          assert order[k] == id && k < |order| - 1;
        }
      }
      OrderSize(m - {last}, init);
      assert (m - {last}).Keys == m.Keys - {last};
    }
  }

  /** `order` without `id`: a dictionary's order after `pop(id)`. */
  function Without(order: seq<string>, id: string): (r: seq<string>)
    ensures forall x :: x in r <==> x in order && x != id
    ensures |r| <= |order|
  {
    if |order| == 0 then []
    else if order[|order| - 1] == id then Without(order[..|order| - 1], id)
    else Without(order[..|order| - 1], id) + [order[|order| - 1]]
  }

  /** Removing a key keeps the remaining keys in their order, once each. */
  lemma {:induction false} WithoutKeepsOrder(m: map<string, Campaign>, order: seq<string>, id: string)
    requires OrderOf(m, order)
    ensures OrderOf(m - {id}, Without(order, id))
  {
    WithoutDistinct(order, id);
  }

  lemma {:induction false} WithoutDistinct(order: seq<string>, id: string)
    requires forall i, j :: 0 <= i < j < |order| ==> order[i] != order[j]
    ensures forall i, j :: 0 <= i < j < |Without(order, id)| ==> Without(order, id)[i] != Without(order, id)[j]
  {
    if |order| > 0 {
      var init := order[..|order| - 1];
      WithoutDistinct(init, id);
      var last := order[|order| - 1];
      assert order == init + [last];
      assert last !in init;
      var r0 := Without(init, id);
      if last == id {
        assert Without(order, id) == r0;
      } else {
        var r := r0 + [last];
        assert Without(order, id) == r;
        forall i, j | 0 <= i < j < |r| ensures r[i] != r[j] {
          if j == |r| - 1 {
            assert r[i] == r0[i] && r0[i] in r0;
          } else {
            assert r[i] == r0[i] && r[j] == r0[j];
          }
        }
      }
    }
  }

  /** Moving a running campaign whose run period is over to the retired
      campaigns keeps the registry well formed. */
  lemma RetireKeepsRegistry(tracked: map<string, Campaign>, trackedOrder: seq<string>,
                            retired: map<string, Campaign>, retiredOrder: seq<string>,
                            repr: set<Campaign>, statsRepr: set<CampaignStatistics>, id: string)
    requires Registry(tracked, trackedOrder, retired, retiredOrder, repr, statsRepr)
    requires id in tracked && tracked[id].stats.daysLeftToRun == 0
    ensures Registry(tracked - {id}, Without(trackedOrder, id), retired[id := tracked[id]], retiredOrder + [id],
                     repr, statsRepr)
  {
    var t, r := tracked - {id}, retired[id := tracked[id]];
    WithoutKeepsOrder(tracked, trackedOrder, id);
    AddKeepsOrder(retired, retiredOrder, id, tracked[id]);
    forall a, b | a in r && b in r && a != b ensures r[a].stats != r[b].stats {
    }
    forall a, b | a in t && b in r ensures t[a].stats != r[b].stats {
    }
  }

  /** Moving a key from one dictionary to the other keeps their keys together. */
  lemma MoveKeepsKeys(tracked: map<string, Campaign>, retired: map<string, Campaign>, id: string)
    requires id in tracked
    ensures (tracked - {id}).Keys + retired[id := tracked[id]].Keys == tracked.Keys + retired.Keys
  {
  }

  /** The pacing controller's own invariant. */
  ghost predicate PacingHolds(p: Mystique.MystiquePacingSystem)
    reads p, p.campaigns.Values
  {
    p.Valid()
  }

  /** What the winners paid to campaign `id`, in total. */
  function PaidTo(winners: seq<AuctionWinner>, id: string): real
  {
    if |winners| == 0 then 0.0
    else
      var w := winners[|winners| - 1];
      PaidTo(winners[..|winners| - 1], id) + (if w.bid.campaignId == id then w.payment else 0.0)
  }

  /** How many of the winners are campaign `id`. */
  function WinsOf(winners: seq<AuctionWinner>, id: string): nat
  {
    if |winners| == 0 then 0
    else
      var w := winners[|winners| - 1];
      WinsOf(winners[..|winners| - 1], id) + (if w.bid.campaignId == id then 1 else 0)
  }

  /** Charging two runs of winners one after the other charges each
      campaign the sum of both. */
  lemma {:induction false} PaidToAppend(first: seq<AuctionWinner>, second: seq<AuctionWinner>, id: string)
    ensures PaidTo(first + second, id) == PaidTo(first, id) + PaidTo(second, id)
    ensures WinsOf(first + second, id) == WinsOf(first, id) + WinsOf(second, id)
    decreases |second|
  {
    if |second| == 0 {
      assert first + second == first;
    } else {
      var init := second[..|second| - 1];
      assert (first + second)[..|first + second| - 1] == first + init;
      PaidToAppend(first, init, id);
    }
  }

  /** A campaign that won nothing paid nothing; with non-negative
      payments nobody pays a negative amount. */
  lemma {:induction false} PaidToOnlyWhenWon(winners: seq<AuctionWinner>, id: string)
    requires forall k :: 0 <= k < |winners| ==> winners[k].payment >= 0.0
    ensures PaidTo(winners, id) >= 0.0
    ensures WinsOf(winners, id) == 0 ==> PaidTo(winners, id) == 0.0
  {
    if |winners| > 0 {
      PaidToOnlyWhenWon(winners[..|winners| - 1], id);
    }
  }

  /** The pending spend after one winner: with a pacing controller, a
      running campaign's payment is added to what is pending for it
      (`dict.get(id, 0) + payment`); otherwise nothing is recorded. */
  function PendingStep(pending: map<string, real>, w: AuctionWinner, running: set<string>, pacing: bool): map<string, real>
  {
    if pacing && w.bid.campaignId in running then pending[w.bid.campaignId := Get(pending, w.bid.campaignId) + w.payment]
    else pending
  }

  /** The pending spend after a run of winners, one after another. */
  function PendingAfter(pending: map<string, real>, winners: seq<AuctionWinner>, running: set<string>, pacing: bool)
    : map<string, real>
  {
    if |winners| == 0 then pending
    else PendingStep(PendingAfter(pending, winners[..|winners| - 1], running, pacing), winners[|winners| - 1], running, pacing)
  }

  /** One more winner: the record of the campaign it names is charged
      once more, every other record stays as it was. */
  lemma ChargedStep(before: Today, after: Today, start: Today, winners: seq<AuctionWinner>, w: AuctionWinner,
                    id: string, spendIndex: nat, winIndex: nat)
    requires before == Charge(start, PaidTo(winners, id), WinsOf(winners, id), spendIndex, winIndex)
    requires id == w.bid.campaignId ==> after == Charge(before, w.payment, 1, spendIndex, winIndex)
    requires id != w.bid.campaignId ==> after == before
    ensures after == Charge(start, PaidTo(winners + [w], id), WinsOf(winners + [w], id), spendIndex, winIndex)
  {
    assert (winners + [w])[..|winners|] == winners;
    if id == w.bid.campaignId {
      ChargeTwice(start, PaidTo(winners, id), w.payment, WinsOf(winners, id), 1, spendIndex, winIndex);
    }
  }

  /** Recording one more winner is one more step. */
  lemma PendingAfterSnoc(pending: map<string, real>, winners: seq<AuctionWinner>, w: AuctionWinner,
                         running: set<string>, pacing: bool)
    ensures PendingAfter(pending, winners + [w], running, pacing)
            == PendingStep(PendingAfter(pending, winners, running, pacing), w, running, pacing)
  {
    assert (winners + [w])[..|winners|] == winners;
  }

  /** With a pacing controller, what is pending for a running campaign
      grows by exactly what it paid, and an id gains an entry only when it
      is running and won; without one nothing is recorded. */
  lemma {:induction false} PendingAfterAddsPayments(pending: map<string, real>, winners: seq<AuctionWinner>,
                                                    running: set<string>, pacing: bool)
    ensures !pacing ==> PendingAfter(pending, winners, running, pacing) == pending
    ensures forall id :: Get(PendingAfter(pending, winners, running, pacing), id)
                         == Get(pending, id) + (if pacing && id in running then PaidTo(winners, id) else 0.0)
    ensures forall id :: id in PendingAfter(pending, winners, running, pacing) <==>
                         id in pending || (pacing && id in running && WinsOf(winners, id) > 0)
  {
    if |winners| > 0 {
      PendingAfterAddsPayments(pending, winners[..|winners| - 1], running, pacing);
    }
  }

  /** A campaign that spent `spentToday` of its `dailyBudget` takes part in
      the next minute's auctions: it is under budget and the day has a next
      minute. */
  predicate AliveAt(spentToday: real, dailyBudget: real, minuteInDay: nat)
  {
    spentToday < dailyBudget && minuteInDay < Configuration.NumMinutesInDay - 1
  }

  /** `_end_of_minute_campaign_updates` as written, on the running
      campaigns' (spend today, daily budget) pairs in registration order:
      the increment reads an attribute that the statistics never define, so
      the update raises (false) at the first campaign alive this minute and
      completes (true) only when none is. */
  function EndOfMinuteAsWritten(running: seq<(real, real)>, minuteInDay: nat): (completes: bool)
    ensures completes <==> forall k :: 0 <= k < |running| ==> !AliveAt(running[k].0, running[k].1, minuteInDay)
  {
    if |running| == 0 then true
    else if AliveAt(running[|running| - 1].0, running[|running| - 1].1, minuteInDay) then false
    else EndOfMinuteAsWritten(running[..|running| - 1], minuteInDay)
  }

  /** As written, the first minute of a simulation whose campaign has a
      budget raises: the campaign has spent nothing yet. */
  lemma EndOfMinuteAsWrittenRaises(running: seq<(real, real)>, k: nat)
    requires k < |running| && running[k].0 == 0.0 && running[k].1 > 0.0
    ensures !EndOfMinuteAsWritten(running, 0)
  {
    assert AliveAt(running[k].0, running[k].1, 0);
  }

  /** The statistics `v` after the end of a minute: one more minute alive
      when the campaign took part in the auctions. */
  function MinuteCounted(v: StatsView, alive: bool): StatsView
  {
    v.(minutesAliveToday := v.minutesAliveToday + (if alive then 1 else 0))
  }

  /** Statistics objects whose only changed field is the minute counter
      read as before with the new count. */
  twostate lemma OnlyMinutesCounted(m: map<string, Campaign>)
    requires forall id :: id in m ==>
      var s := m[id].stats;
      unchanged(s`spendHistory, s`auctionsWonHistory, s`todaySpend, s`auctionsWonToday, s`totalSpentToday,
                s`daysLeftToRun, s`dayStarted, s`dayEnded)
    ensures forall id :: id in m ==>
      m[id].stats.View() == old(m[id].stats.View()).(minutesAliveToday := m[id].stats.minutesAliveToday)
  {
  }

  /** `pending` after popping the entries of `ids` in turn. */
  function PopAll(pending: map<string, real>, ids: seq<string>): map<string, real>
  {
    if |ids| == 0 then pending else PopAll(pending, ids[..|ids| - 1]) - {ids[|ids| - 1]}
  }

  /** Popping a list of ids removes exactly those ids. */
  lemma {:induction false} PopAllRemoves(pending: map<string, real>, ids: seq<string>)
    ensures PopAll(pending, ids) == pending - (set x | x in ids)
  {
    if |ids| > 0 {
      var init := ids[..|ids| - 1];
      PopAllRemoves(pending, init);
      assert (set x | x in ids) == (set x | x in init) + {ids[|ids| - 1]} by {
        assert ids == init + [ids[|ids| - 1]];
      }
    }
  }

  /** Popping the ids of a dictionary's order removes exactly its keys. */
  lemma PopOrderRemovesKeys(pending: map<string, real>, m: map<string, Campaign>, order: seq<string>)
    requires OrderOf(m, order)
    ensures PopAll(pending, order) == pending - m.Keys
  {
    PopAllRemoves(pending, order);
    assert (set x | x in order) == m.Keys;
  }

  /** Every campaign of `m` holds the statistics `views` records for it,
      rolled over to day `days` when it is in `done`. */
  ghost predicate ViewsAt(m: map<string, Campaign>, views: map<string, StatsView>, done: set<string>, days: nat)
    reads set id | id in m :: m[id].stats
  {
    forall id :: id in m ==>
      && id in views
      && m[id].stats.View()
         == (if id in done then RolledOver(views[id], days, m[id].stats.numSpendEntriesPerDay, m[id].stats.numWinEntriesPerDay)
             else views[id])
  }

  /** Where the campaigns stand part-way through the end of the day: of the
      campaigns running at its start (`tracked0`), those in `done` are still
      running exactly when they have more than one day left and retired
      exactly when they had one, and the others are still running; nothing
      else moves. */
  ghost predicate EndDayMembers(tracked: map<string, Campaign>, retired: map<string, Campaign>,
                                tracked0: map<string, Campaign>, retired0: map<string, Campaign>,
                                views: map<string, StatsView>, done: set<string>)
  {
    && tracked.Keys + retired.Keys == tracked0.Keys + retired0.Keys && tracked.Keys !! retired.Keys
    && (forall id :: id in tracked ==> id in tracked0 && tracked[id] == tracked0[id])
    && (forall id :: id in retired0 ==> id in retired && retired[id] == retired0[id])
    && (forall id :: id in done ==> id in tracked0 && id in views && views[id].daysLeftToRun >= 1)
    && (forall id :: id in tracked0 && id !in done ==> id in tracked)
    && (forall id :: id in tracked0 && id in done ==>
          && (id in tracked <==> views[id].daysLeftToRun > 1)
          && (id in retired <==> views[id].daysLeftToRun == 1))
  }

  /** One more campaign's end of day keeps `EndDayMembers`. */
  lemma EndDayMembersStep(tracked: map<string, Campaign>, retired: map<string, Campaign>,
                          tracked0: map<string, Campaign>, retired0: map<string, Campaign>,
                          views: map<string, StatsView>, done: set<string>, id: string,
                          tracked': map<string, Campaign>, retired': map<string, Campaign>)
    requires EndDayMembers(tracked, retired, tracked0, retired0, views, done)
    requires tracked0.Keys !! retired0.Keys
    requires id in tracked0 && id !in done && id in views && views[id].daysLeftToRun >= 1
    requires if views[id].daysLeftToRun == 1
             then tracked' == tracked - {id} && retired' == retired[id := tracked[id]]
             else tracked' == tracked && retired' == retired
    ensures EndDayMembers(tracked', retired', tracked0, retired0, views, done + {id})
  {
  }

  class ServingSystem {
    var trackedCampaigns: map<string, Campaign>
    var trackedOrder: seq<string>
    var oldCampaigns: map<string, Campaign>
    var oldOrder: seq<string>
    var pendingPacingSpendUpdates: map<string, real>
    const pacingSystem: Mystique.MystiquePacingSystem?
    /** The registered campaigns and their statistics objects. */
    ghost var Repr: set<Campaign>
    ghost var StatsRepr: set<CampaignStatistics>

    /** The pacing controller and the campaigns it tracks. */
    ghost function PacingObjects(): set<object>
      reads if pacingSystem == null then {} else {pacingSystem}
    {
      if pacingSystem == null then {} else {pacingSystem} + pacingSystem.campaigns.Values
    }

    /** The registry is well formed and the pacing controller, when
        present, tracks exactly the registered ids. Neither the pending
        spend nor the campaigns' bid caches are read. */
    ghost predicate Valid()
      reads `trackedCampaigns, `trackedOrder, `oldCampaigns, `oldOrder, `Repr, `StatsRepr
      reads StatsRepr`todaySpend, StatsRepr`auctionsWonToday, StatsRepr`totalSpentToday
      reads StatsRepr`spendHistory, StatsRepr`auctionsWonHistory, StatsRepr`dayStarted, StatsRepr`daysLeftToRun
      reads PacingObjects()
    {
      RegistryValid() && PacingAgrees()
    }

    ghost predicate RegistryValid()
      reads `trackedCampaigns, `trackedOrder, `oldCampaigns, `oldOrder, `Repr, `StatsRepr
      reads StatsRepr`todaySpend, StatsRepr`auctionsWonToday, StatsRepr`totalSpentToday
      reads StatsRepr`spendHistory, StatsRepr`auctionsWonHistory, StatsRepr`dayStarted, StatsRepr`daysLeftToRun
    {
      Registry(trackedCampaigns, trackedOrder, oldCampaigns, oldOrder, Repr, StatsRepr)
    }

    ghost predicate PacingAgrees()
      reads `trackedCampaigns, `oldCampaigns, PacingObjects()
    {
      pacingSystem != null ==>
        && PacingHolds(pacingSystem) && pacingSystem.campaigns.Keys == trackedCampaigns.Keys + oldCampaigns.Keys
        && this !in PacingObjects()
    }

    constructor (pacingSystem: Mystique.MystiquePacingSystem?)
      requires pacingSystem != null ==> pacingSystem.Valid() && pacingSystem.campaigns == map[]
      ensures Valid() && this.pacingSystem == pacingSystem
      ensures trackedCampaigns == map[] && oldCampaigns == map[] && pendingPacingSpendUpdates == map[]
    {
      trackedCampaigns, trackedOrder := map[], [];
      oldCampaigns, oldOrder := map[], [];
      this.pacingSystem := pacingSystem;
      pendingPacingSpendUpdates := map[];
      Repr, StatsRepr := {}, {};
    }

    /** Registers a new campaign and forwards it to the pacing controller;
        a missing campaign or an id already running or retired is refused
        and changes nothing. */
    method AddCampaign(campaign: Campaign?, days: nat) returns (err: Option<AddError>)
      requires Valid()
      requires campaign != null ==> campaign.Valid() && campaign.stats !in StatsRepr
      modifies this, pacingSystem
      ensures Valid()
      ensures err == Some(NoneCampaign) <==> campaign == null
      ensures err == Some(DuplicateId) <==>
        campaign != null && (campaign.id in old(trackedCampaigns) || campaign.id in old(oldCampaigns))
      ensures oldCampaigns == old(oldCampaigns) && oldOrder == old(oldOrder)
      ensures pendingPacingSpendUpdates == old(pendingPacingSpendUpdates)
      ensures err.Some? ==> trackedCampaigns == old(trackedCampaigns) && trackedOrder == old(trackedOrder)
      ensures err.Some? && pacingSystem != null ==>
        pacingSystem.campaigns == old(pacingSystem.campaigns) && pacingSystem.order == old(pacingSystem.order)
      ensures err.None? ==>
        && campaign != null
        && trackedCampaigns == old(trackedCampaigns)[campaign.id := campaign]
        && trackedOrder == old(trackedOrder) + [campaign.id]
      ensures err.None? && pacingSystem != null ==>
        && pacingSystem.campaigns.Keys == old(pacingSystem.campaigns.Keys) + {campaign.id}
        && fresh(pacingSystem.campaigns[campaign.id])
        && pacingSystem.campaigns[campaign.id].dailyBudget == campaign.dailyBudget
        && pacingSystem.campaigns[campaign.id].dayStarted == days
    {
      if campaign == null {
        return Some(NoneCampaign);
      }
      if campaign.id in trackedCampaigns || campaign.id in oldCampaigns {
        return Some(DuplicateId);
      }
      AddNew(campaign, days);
      return None;
    }

    /** Registers a campaign under a new id and forwards it to the pacing
        controller. */
    method AddNew(campaign: Campaign, days: nat)
      requires Valid() && campaign.Valid() && campaign.stats !in StatsRepr
      requires campaign.id !in trackedCampaigns && campaign.id !in oldCampaigns
      modifies this, pacingSystem
      ensures Valid()
      ensures oldCampaigns == old(oldCampaigns) && oldOrder == old(oldOrder)
      ensures pendingPacingSpendUpdates == old(pendingPacingSpendUpdates)
      ensures trackedCampaigns == old(trackedCampaigns)[campaign.id := campaign]
      ensures trackedOrder == old(trackedOrder) + [campaign.id]
      ensures pacingSystem != null ==>
        && pacingSystem.campaigns.Keys == old(pacingSystem.campaigns.Keys) + {campaign.id}
        && fresh(pacingSystem.campaigns[campaign.id])
        && pacingSystem.campaigns[campaign.id].dailyBudget == campaign.dailyBudget
        && pacingSystem.campaigns[campaign.id].dayStarted == days
    {
      ghost var pacing := pacingSystem != null && PacingHolds(pacingSystem);
      Register(campaign);
      if pacingSystem != null {
        assert pacing == PacingHolds(pacingSystem);
        assert pacingSystem.campaigns.Keys + {campaign.id} == trackedCampaigns.Keys + oldCampaigns.Keys;
        ForwardToPacing(campaign, days);
      }
    }

    /** Enters a campaign with a new id into the running registry. */
    method Register(campaign: Campaign)
      requires RegistryValid() && campaign.Valid() && campaign.stats !in StatsRepr
      requires campaign.id !in trackedCampaigns && campaign.id !in oldCampaigns
      modifies this
      ensures RegistryValid() && Repr == old(Repr) + {campaign} && StatsRepr == old(StatsRepr) + {campaign.stats}
      ensures trackedCampaigns == old(trackedCampaigns)[campaign.id := campaign]
      ensures trackedOrder == old(trackedOrder) + [campaign.id]
      ensures oldCampaigns == old(oldCampaigns) && oldOrder == old(oldOrder)
      ensures pendingPacingSpendUpdates == old(pendingPacingSpendUpdates)
    {
      RegisterKeepsRegistry(trackedCampaigns, trackedOrder, oldCampaigns, oldOrder, Repr, StatsRepr, campaign);
      ghost var valid := Registry(trackedCampaigns[campaign.id := campaign], trackedOrder + [campaign.id],
                                  oldCampaigns, oldOrder, Repr + {campaign}, StatsRepr + {campaign.stats});
      trackedCampaigns := trackedCampaigns[campaign.id := campaign];
      trackedOrder := trackedOrder + [campaign.id];
      Repr, StatsRepr := Repr + {campaign}, StatsRepr + {campaign.stats};
      assert valid == RegistryValid();
    }

    /** Hands a newly registered campaign to the pacing controller, which
        then tracks every registered id again. */
    method ForwardToPacing(campaign: Campaign, days: nat)
      requires RegistryValid() && campaign.dailyBudget > 0.0
      requires pacingSystem != null && pacingSystem.Valid()
      requires campaign.id !in pacingSystem.campaigns
      requires pacingSystem.campaigns.Keys + {campaign.id} == trackedCampaigns.Keys + oldCampaigns.Keys
      requires this !in PacingObjects()
      modifies pacingSystem
      ensures Valid()
      ensures pacingSystem.campaigns.Keys == old(pacingSystem.campaigns.Keys) + {campaign.id}
      ensures fresh(pacingSystem.campaigns[campaign.id])
      ensures pacingSystem.campaigns[campaign.id].dailyBudget == campaign.dailyBudget
      ensures pacingSystem.campaigns[campaign.id].dayStarted == days
    {
      ghost var registry := RegistryValid();
      pacingSystem.AddCampaign(campaign.id, campaign.dailyBudget, days);
      assert registry == RegistryValid();
    }

    /** The pacing signal a bidder multiplies by, when pacing is present. */
    function Signal(id: string): (r: Option<real>)
      reads if pacingSystem == null then {} else {pacingSystem}`campaigns
      reads if pacingSystem == null then {} else pacingSystem.campaigns.Values`ps
      ensures r.Some? <==> pacingSystem != null
    {
      if pacingSystem == null then None else Some(pacingSystem.GetPacingSignal(id))
    }

    /** With the controller well formed, every signal lies in [0, 1]. */
    lemma SignalInUnit(id: string)
      requires PacingAgrees()
      ensures var r := Signal(id); r.Some? ==> TrackedCampaigns.InUnit(r.value)
    {
      if pacingSystem != null {
        pacingSystem.PacingSignalInUnit(id);
      }
    }

    /** One campaign's part of `get_bids`: check relevance, then the
        budget, then draw a bid and pace it. Only a relevant campaign
        under budget draws from its cache. */
    method Offer(c: Campaign, refill: seq<real>, userProperties: map<string, int>)
      returns (relevant: bool, offer: Option<Bid>)
      requires |refill| > 0
      modifies c`bidsCache
      ensures relevant == Matches(c.targetingGroups, userProperties)
      ensures Offered(c, relevant, offer, old(c.bidsCache), c.bidsCache, c.stats.totalSpentToday, refill, old(Signal(c.id)))
    {
      ghost var spec := BidFor(c.id, c.maxBid, Drawn(c.bidsCache, refill));
      ghost var signal := Signal(c.id);
      relevant := c.IsRelevantAuction(AuctionFP(userProperties));
      offer := None;
      if relevant && c.stats.totalSpentToday < c.dailyBudget {
        var drawn := c.Bid(refill);
        assert drawn == spec && signal == Signal(c.id);
        if drawn.Some? {
          var ps := if pacingSystem != null then Some(pacingSystem.GetPacingSignal(c.id)) else None;
          assert ps == signal;
          var amount := Paced(drawn.value.amount, ps);
          if amount > 0.0 {
            offer := Some(Bid(drawn.value.campaignId, amount));
          }
        }
      }
      assert signal == Signal(c.id);
      assert offer == TrackedBid(relevant, c.stats.totalSpentToday, c.dailyBudget, spec, signal);
    }

    /** The tracked bids for an auction, in registration order, and the
        number of campaigns the auction is relevant to. `refills` holds,
        per campaign, the amounts a refill of an empty bid cache would
        sample. */
    method GetBids(auction: AuctionFP, refills: map<string, seq<real>>)
      returns (bids: seq<Bid>, numRelevant: nat, ghost offers: seq<Option<Bid>>)
      requires Valid()
      requires forall id :: id in trackedCampaigns ==> id in refills && |refills[id]| > 0
      modifies Repr`bidsCache
      ensures Valid()
      ensures |offers| == |trackedOrder| && bids == Present(offers)
      ensures numRelevant == CountTrue(Relevance(trackedCampaigns, trackedOrder, auction.userProperties))
      ensures forall k :: 0 <= k < |trackedOrder| ==>
        var c := trackedCampaigns[trackedOrder[k]];
        Offered(c, Matches(c.targetingGroups, auction.userProperties), offers[k], old(c.bidsCache), c.bidsCache,
                c.stats.totalSpentToday, refills[c.id], old(Signal(c.id)))
      ensures forall id :: id in oldCampaigns ==> oldCampaigns[id].bidsCache == old(oldCampaigns[id].bidsCache)
    {
      ghost var valid := Valid();
      bids, numRelevant, offers := OfferTracked(auction, refills);
      assert valid == Valid();
    }

    /** `get_bids` on the running campaigns, in registration order. */
    method OfferTracked(auction: AuctionFP, refills: map<string, seq<real>>)
      returns (bids: seq<Bid>, numRelevant: nat, ghost offers: seq<Option<Bid>>)
      requires RegistryValid()
      requires forall id :: id in trackedCampaigns ==> id in refills && |refills[id]| > 0
      modifies Repr`bidsCache
      ensures |offers| == |trackedOrder| && bids == Present(offers)
      ensures numRelevant == CountTrue(Relevance(trackedCampaigns, trackedOrder, auction.userProperties))
      ensures forall k :: 0 <= k < |trackedOrder| ==>
        var c := trackedCampaigns[trackedOrder[k]];
        Offered(c, Matches(c.targetingGroups, auction.userProperties), offers[k], old(c.bidsCache), c.bidsCache,
                c.stats.totalSpentToday, refills[c.id], old(Signal(c.id)))
      ensures forall id :: id in oldCampaigns ==> oldCampaigns[id].bidsCache == old(oldCampaigns[id].bidsCache)
    {
      var cs := InOrder(trackedCampaigns, trackedOrder);
      InOrderDistinct(trackedCampaigns, trackedOrder, oldCampaigns);
      ghost var rel;
      bids, numRelevant, offers, rel := OfferAll(cs, refills, auction.userProperties);
      assert rel == Relevance(trackedCampaigns, trackedOrder, auction.userProperties);
    }

    /** Asks each campaign of `cs` in turn for its offer, as the loop of
        `get_bids` does; only the campaigns' bid caches change. */
    method OfferAll(cs: seq<Campaign>, refills: map<string, seq<real>>, userProperties: map<string, int>)
      returns (bids: seq<Bid>, numRelevant: nat, ghost offers: seq<Option<Bid>>, ghost rel: seq<bool>)
      requires forall k :: 0 <= k < |cs| ==> cs[k].id in refills && |refills[cs[k].id]| > 0
      requires forall k, j :: 0 <= k < |cs| && 0 <= j < |cs| && k != j ==> cs[k] != cs[j]
      modifies (set c | c in cs)`bidsCache
      ensures |offers| == |cs| && |rel| == |cs|
      ensures bids == Present(offers) && numRelevant == CountTrue(rel)
      ensures forall k :: 0 <= k < |cs| ==> rel[k] == Matches(cs[k].targetingGroups, userProperties)
      ensures forall k :: 0 <= k < |cs| ==>
        Offered(cs[k], rel[k], offers[k], old(cs[k].bidsCache), cs[k].bidsCache, cs[k].stats.totalSpentToday,
                refills[cs[k].id], old(Signal(cs[k].id)))
    {
      ghost var signals := map c | c in cs :: Signal(c.id);
      ghost var before, spent := Caches(cs), SpentToday(cs);
      ghost var caches;
      bids, numRelevant, offers, rel, caches := OfferEach(cs, refills, userProperties, before, spent, signals);
      OfferedEachAt(cs, rel, offers, before, caches, spent, refills, userProperties, signals, |cs|);
    }

    /** The loop of `get_bids` itself, recording each turn against the
        caches `before`, the amounts spent `spent` and the pacing signals
        `signals` the campaigns had when it started. */
    method OfferEach(cs: seq<Campaign>, refills: map<string, seq<real>>, userProperties: map<string, int>,
                     ghost before: seq<seq<real>>, ghost spent: seq<real>, ghost signals: map<Campaign, Option<real>>)
      returns (bids: seq<Bid>, numRelevant: nat, ghost offers: seq<Option<Bid>>, ghost rel: seq<bool>,
               ghost caches: seq<seq<real>>)
      requires forall k :: 0 <= k < |cs| ==> cs[k].id in refills && |refills[cs[k].id]| > 0
      requires forall k, j :: 0 <= k < |cs| && 0 <= j < |cs| && k != j ==> cs[k] != cs[j]
      requires |before| == |cs| && |spent| == |cs|
      requires forall k :: 0 <= k < |cs| ==>
        && before[k] == cs[k].bidsCache && spent[k] == cs[k].stats.totalSpentToday
        && cs[k] in signals && signals[cs[k]] == Signal(cs[k].id)
      modifies (set c | c in cs)`bidsCache
      ensures |offers| == |cs| && |rel| == |cs| && |caches| == |cs|
      ensures bids == Present(offers) && numRelevant == CountTrue(rel)
      ensures OfferedEach(cs, rel, offers, before, caches, spent, refills, userProperties, signals, |cs|)
      ensures forall k :: 0 <= k < |cs| ==> cs[k].bidsCache == caches[k]
    {
      bids, numRelevant, offers, rel, caches := [], 0, [], [], [];
      var i := 0;
      while i < |cs|
        invariant 0 <= i <= |cs| && |offers| == i && |rel| == i && |caches| == i
        invariant bids == Present(offers) && numRelevant == CountTrue(rel)
        invariant OfferedEach(cs, rel, offers, before, caches, spent, refills, userProperties, signals, i)
        invariant forall k :: 0 <= k < |cs| ==> cs[k].bidsCache == if k < i then caches[k] else before[k]
      {
        assert signals[cs[i]] == Signal(cs[i].id);
        bids, numRelevant, offers, rel, caches :=
          TakeTurn(cs, i, refills, userProperties, before, spent, signals, bids, numRelevant, offers, rel, caches);
        i := i + 1;
      }
    }

    /** One turn of that loop: campaign `cs[i]` offers, and the records
        grow by its turn. */
    method TakeTurn(cs: seq<Campaign>, i: nat, refills: map<string, seq<real>>, userProperties: map<string, int>,
                    ghost before: seq<seq<real>>, ghost spent: seq<real>, ghost signals: map<Campaign, Option<real>>,
                    bids: seq<Bid>, numRelevant: nat, ghost offers: seq<Option<Bid>>, ghost rel: seq<bool>,
                    ghost caches: seq<seq<real>>)
      returns (bids': seq<Bid>, numRelevant': nat, ghost offers': seq<Option<Bid>>, ghost rel': seq<bool>,
               ghost caches': seq<seq<real>>)
      requires i < |cs| && i < |before| && i < |spent| && |offers| == i && |rel| == i && |caches| == i
      requires cs[i].id in refills && |refills[cs[i].id]| > 0
      requires bids == Present(offers) && numRelevant == CountTrue(rel)
      requires OfferedEach(cs, rel, offers, before, caches, spent, refills, userProperties, signals, i)
      requires before[i] == cs[i].bidsCache && spent[i] == cs[i].stats.totalSpentToday
      requires cs[i] in signals && signals[cs[i]] == Signal(cs[i].id)
      modifies {cs[i]}`bidsCache
      ensures |offers'| == i + 1 && |rel'| == i + 1 && caches' == caches + [cs[i].bidsCache]
      ensures bids' == Present(offers') && numRelevant' == CountTrue(rel')
      ensures OfferedEach(cs, rel', offers', before, caches', spent, refills, userProperties, signals, i + 1)
    {
      var c := cs[i];
      var relevant, offer := Offer(c, refills[c.id], userProperties);
      OfferedEachSnoc(cs, rel, offers, before, caches, spent, refills, userProperties, signals, relevant, offer, c.bidsCache);
      CountTrueSnoc(rel, relevant);
      PresentSnoc(offers, offer);
      numRelevant' := if relevant then numRelevant + 1 else numRelevant;
      bids' := if offer.Some? then bids + [offer.value] else bids;
      offers', rel', caches' := offers + [offer], rel + [relevant], caches + [c.bidsCache];
    }
  
    /** `update_winners`: each winner that is a running campaign is
        charged its payment in the buckets of the current minute and, with
        a pacing controller, the payment is added to the spend pending for
        that campaign. Winners that are not running, retired campaigns and
        bidders outside the simulation alike, change nothing. */
    method UpdateWinners(winners: seq<AuctionWinner>, clock: Clock.Clock)
      requires Valid()
      modifies `pendingPacingSpendUpdates, StatsRepr`todaySpend, StatsRepr`totalSpentToday, StatsRepr`auctionsWonToday
      ensures Valid()
      ensures pendingPacingSpendUpdates
              == PendingAfter(old(pendingPacingSpendUpdates), winners, trackedCampaigns.Keys, pacingSystem != null)
      ensures trackedCampaigns == old(trackedCampaigns) && oldCampaigns == old(oldCampaigns)
      ensures forall id :: id in old(trackedCampaigns) ==>
        var s := old(StatsOf(id));
        TodayOf(s) == Charge(old(TodayOf(s)), PaidTo(winners, id), WinsOf(winners, id),
                             EntryIndex(old(clock.MinuteInDay()), s.numSpendEntriesPerDay),
                             EntryIndex(old(clock.MinuteInDay()), s.numWinEntriesPerDay))
      ensures forall id :: id in oldCampaigns ==> TodayOf(oldCampaigns[id].stats) == old(TodayOf(oldCampaigns[id].stats))
    {
      var minute := clock.MinuteInDay();
      ghost var start := map id | id in trackedCampaigns :: TodayOf(StatsOf(id));
      ghost var retired := map id | id in oldCampaigns :: TodayOf(oldCampaigns[id].stats);
      ghost var buckets := map id | id in trackedCampaigns ::
        (EntryIndex(minute, StatsOf(id).numSpendEntriesPerDay), EntryIndex(minute, StatsOf(id).numWinEntriesPerDay));
      forall id | id in trackedCampaigns
        ensures TodayOf(StatsOf(id)) == Charge(start[id], PaidTo([], id), WinsOf([], id), buckets[id].0, buckets[id].1)
      {
        ChargeNothing(start[id], buckets[id].0, buckets[id].1);
      }
      assert winners[..0] == [];
      PayAll(winners, minute, start, buckets, retired);
      forall id | id in old(trackedCampaigns)
        ensures TodayOf(old(StatsOf(id))) == Charge(start[id], PaidTo(winners, id), WinsOf(winners, id),
                                                    buckets[id].0, buckets[id].1)
      {
      }
    }

    /** The loop of `update_winners`, charging and recording the winners
        one after another. */
    method PayAll(winners: seq<AuctionWinner>, minuteInDay: nat, ghost start: map<string, Today>,
                  ghost buckets: map<string, (nat, nat)>, ghost retired: map<string, Today>)
      requires Valid() && BucketsAt(buckets, minuteInDay)
      requires ChargedRunning(winners[..0], start, buckets) && ChargedRetired(retired)
      modifies `pendingPacingSpendUpdates, StatsRepr`todaySpend, StatsRepr`totalSpentToday, StatsRepr`auctionsWonToday
      ensures Valid()
      ensures pendingPacingSpendUpdates
              == PendingAfter(old(pendingPacingSpendUpdates), winners, trackedCampaigns.Keys, pacingSystem != null)
      ensures ChargedRunning(winners, start, buckets) && ChargedRetired(retired)
      ensures trackedCampaigns == old(trackedCampaigns) && oldCampaigns == old(oldCampaigns)
    {
      var i := 0;
      while i < |winners|
        invariant i <= |winners| && Valid() && BucketsAt(buckets, minuteInDay)
        invariant pendingPacingSpendUpdates
                  == PendingAfter(old(pendingPacingSpendUpdates), winners[..i], trackedCampaigns.Keys, pacingSystem != null)
        invariant ChargedRunning(winners[..i], start, buckets) && ChargedRetired(retired)
      {
        PayNext(winners, i, minuteInDay, start, buckets, retired, old(pendingPacingSpendUpdates));
        i := i + 1;
      }
      assert winners[..i] == winners;
    }

    /** `buckets` holds, per running campaign, the spend and win buckets
        of `minuteInDay`. The bucket counts are fixed, so only the registry
        is read. */
    ghost predicate BucketsAt(buckets: map<string, (nat, nat)>, minuteInDay: nat)
      reads `trackedCampaigns
    {
      && minuteInDay < Configuration.NumIterationsPerDay
      && forall id :: id in trackedCampaigns ==>
           && id in buckets
           && EntriesDivideDay(StatsOf(id).numSpendEntriesPerDay) && EntriesDivideDay(StatsOf(id).numWinEntriesPerDay)
           && buckets[id] == (EntryIndex(minuteInDay, StatsOf(id).numSpendEntriesPerDay),
                              EntryIndex(minuteInDay, StatsOf(id).numWinEntriesPerDay))
    }

    /** Each running campaign's record of today is its record at `start`
        charged with what the winners paid and won. */
    ghost predicate ChargedRunning(winners: seq<AuctionWinner>, start: map<string, Today>, buckets: map<string, (nat, nat)>)
      reads `trackedCampaigns, `StatsRepr, StatsRepr`todaySpend, StatsRepr`totalSpentToday, StatsRepr`auctionsWonToday
    {
      forall id :: id in trackedCampaigns ==>
        && id in start && id in buckets && StatsOf(id) in StatsRepr
        && TodayOf(StatsOf(id)) == Charge(start[id], PaidTo(winners, id), WinsOf(winners, id), buckets[id].0, buckets[id].1)
    }

    /** Each retired campaign's record of today is as at `retired`. */
    ghost predicate ChargedRetired(retired: map<string, Today>)
      reads `oldCampaigns, `StatsRepr, StatsRepr`todaySpend, StatsRepr`totalSpentToday, StatsRepr`auctionsWonToday
    {
      forall id :: id in oldCampaigns ==>
        id in retired && oldCampaigns[id].stats in StatsRepr && TodayOf(oldCampaigns[id].stats) == retired[id]
    }

    /** One turn of the loop of `update_winners`: the first `i + 1`
        winners have been charged and recorded. */
    method PayNext(winners: seq<AuctionWinner>, i: nat, minuteInDay: nat, ghost start: map<string, Today>,
                   ghost buckets: map<string, (nat, nat)>, ghost retired: map<string, Today>,
                   ghost pending0: map<string, real>)
      requires i < |winners| && Valid() && BucketsAt(buckets, minuteInDay)
      requires pendingPacingSpendUpdates == PendingAfter(pending0, winners[..i], trackedCampaigns.Keys, pacingSystem != null)
      requires ChargedRunning(winners[..i], start, buckets) && ChargedRetired(retired)
      modifies `pendingPacingSpendUpdates, StatsRepr`todaySpend, StatsRepr`totalSpentToday, StatsRepr`auctionsWonToday
      ensures Valid()
      ensures pendingPacingSpendUpdates
              == PendingAfter(pending0, winners[..i + 1], trackedCampaigns.Keys, pacingSystem != null)
      ensures ChargedRunning(winners[..i + 1], start, buckets) && ChargedRetired(retired)
      ensures trackedCampaigns == old(trackedCampaigns) && oldCampaigns == old(oldCampaigns) && StatsRepr == old(StatsRepr)
    {
      var w := winners[i];
      assert winners[..i + 1] == winners[..i] + [w];
      PendingAfterSnoc(pending0, winners[..i], w, trackedCampaigns.Keys, pacingSystem != null);
      label before:
      PayWinner(w, minuteInDay);
      forall id | id in trackedCampaigns
        ensures TodayOf(StatsOf(id))
                == Charge(start[id], PaidTo(winners[..i + 1], id), WinsOf(winners[..i + 1], id), buckets[id].0, buckets[id].1)
      {
        ChargedStep(old@before(TodayOf(StatsOf(id))), TodayOf(StatsOf(id)), start[id], winners[..i], w, id,
                    buckets[id].0, buckets[id].1);
      }
    }

    /** One winner of `update_winners`. */
    method PayWinner(w: AuctionWinner, minuteInDay: nat)
      requires Valid() && minuteInDay < Configuration.NumIterationsPerDay
      modifies `pendingPacingSpendUpdates, StatsRepr`todaySpend, StatsRepr`totalSpentToday, StatsRepr`auctionsWonToday
      ensures Valid()
      ensures pendingPacingSpendUpdates
              == PendingStep(old(pendingPacingSpendUpdates), w, trackedCampaigns.Keys, pacingSystem != null)
      ensures w.bid.campaignId in trackedCampaigns ==>
        var s := StatsOf(w.bid.campaignId);
        TodayOf(s) == Charge(old(TodayOf(s)), w.payment, 1, EntryIndex(minuteInDay, s.numSpendEntriesPerDay),
                             EntryIndex(minuteInDay, s.numWinEntriesPerDay))
      ensures forall id :: id in trackedCampaigns && id != w.bid.campaignId ==>
        TodayOf(StatsOf(id)) == old(TodayOf(StatsOf(id)))
      ensures forall id :: id in oldCampaigns ==> TodayOf(oldCampaigns[id].stats) == old(TodayOf(oldCampaigns[id].stats))
      ensures trackedCampaigns == old(trackedCampaigns) && oldCampaigns == old(oldCampaigns) && StatsRepr == old(StatsRepr)
    {
      if w.bid.campaignId in trackedCampaigns {
        ChargeRunning(w.bid.campaignId, w.payment, minuteInDay);
      }
      RecordPending(w);
    }

    /** The statistics of the running campaign `id`. */
    function StatsOf(id: string): CampaignStatistics
      reads `trackedCampaigns
      requires id in trackedCampaigns
    {
      trackedCampaigns[id].stats
    }

    /** `_all_campaigns`: the running campaigns, then the retired ones,
        as the per-day aggregations read them. */
    function AllCampaignDays(): (r: seq<DailyTotals.CampaignDays>)
      reads this, StatsRepr
      requires RegistryValid()
      ensures |r| == |trackedCampaigns| + |oldCampaigns|
      ensures forall i :: 0 <= i < |r| ==> DailyTotals.WellFormed(r[i])
    {
      OrderSize(trackedCampaigns, trackedOrder);
      OrderSize(oldCampaigns, oldOrder);
      CampaignDaysIn(trackedCampaigns, trackedOrder) + CampaignDaysIn(oldCampaigns, oldOrder)
    }

    /** A running campaign pays for a won auction (`Campaign.pay`); no
        other campaign's statistics change. */
    method ChargeRunning(id: string, amount: real, minuteInDay: nat)
      requires Valid() && id in trackedCampaigns && minuteInDay < Configuration.NumIterationsPerDay
      modifies StatsOf(id)`todaySpend, StatsOf(id)`totalSpentToday, StatsOf(id)`auctionsWonToday
      ensures Valid()
      ensures var s := StatsOf(id);
        TodayOf(s) == Charge(old(TodayOf(s)), amount, 1, EntryIndex(minuteInDay, s.numSpendEntriesPerDay),
                             EntryIndex(minuteInDay, s.numWinEntriesPerDay))
      ensures forall k :: k in trackedCampaigns && k != id ==> StatsOf(k) != StatsOf(id)
      ensures forall k :: k in oldCampaigns ==> oldCampaigns[k].stats != StatsOf(id)
      ensures trackedCampaigns == old(trackedCampaigns) && oldCampaigns == old(oldCampaigns) && StatsRepr == old(StatsRepr)
    {
      ghost var pacing := PacingAgrees();
      trackedCampaigns[id].Pay(amount, minuteInDay);
      assert pacing == PacingAgrees();
    }

    /** With a pacing controller, a running winner's payment is added to
        the spend pending for it. */
    method RecordPending(w: AuctionWinner)
      requires Valid()
      modifies `pendingPacingSpendUpdates
      ensures Valid()
      ensures pendingPacingSpendUpdates
              == PendingStep(old(pendingPacingSpendUpdates), w, trackedCampaigns.Keys, pacingSystem != null)
      ensures trackedCampaigns == old(trackedCampaigns) && oldCampaigns == old(oldCampaigns) && StatsRepr == old(StatsRepr)
      ensures forall st :: st in StatsRepr ==> TodayOf(st) == old(TodayOf(st))
    {
      ghost var valid := Valid();
      pendingPacingSpendUpdates := PendingStep(pendingPacingSpendUpdates, w, trackedCampaigns.Keys, pacingSystem != null);
      assert valid == Valid();
    }

    /** `_end_of_minute_campaign_updates`: a running campaign still under its
        daily budget counts one more minute alive, except in the last
        minute of the day; nothing else changes. */
    method EndOfMinuteCampaignUpdates(minuteInDay: nat)
      requires Valid()
      modifies StatsRepr`minutesAliveToday
      ensures Valid()
      ensures trackedCampaigns == old(trackedCampaigns) && oldCampaigns == old(oldCampaigns) && StatsRepr == old(StatsRepr)
      ensures trackedOrder == old(trackedOrder)
      ensures forall id :: id in trackedCampaigns ==>
        StatsOf(id).View() == MinuteCounted(old(StatsOf(id).View()), old(AliveThisMinute(trackedCampaigns[id], minuteInDay)))
      ensures forall id :: id in oldCampaigns ==> oldCampaigns[id].stats.View() == old(oldCampaigns[id].stats.View())
    {
      ghost var alive := map id | id in trackedCampaigns :: StatsOf(id).minutesAliveToday;
      ghost var retired := map id | id in oldCampaigns :: oldCampaigns[id].stats.minutesAliveToday;
      ghost var tc, oc := trackedCampaigns, oldCampaigns;
      CountAllMinutes(minuteInDay, alive, retired);
      OnlyMinutesCounted(tc);
      OnlyMinutesCounted(oc);
    }

    /** The end-of-minute update of every running campaign in registration
        order, from minute counts `alive` and `retired`. */
    method CountAllMinutes(minuteInDay: nat, ghost alive: map<string, nat>, ghost retired: map<string, nat>)
      requires Valid()
      requires forall id :: id in trackedCampaigns ==> id in alive && StatsOf(id).minutesAliveToday == alive[id]
      requires forall id :: id in oldCampaigns ==> id in retired && oldCampaigns[id].stats.minutesAliveToday == retired[id]
      modifies StatsRepr`minutesAliveToday
      ensures Valid()
      ensures trackedCampaigns == old(trackedCampaigns) && oldCampaigns == old(oldCampaigns) && StatsRepr == old(StatsRepr)
      ensures forall id :: id in trackedCampaigns ==>
        StatsOf(id).minutesAliveToday == alive[id] + (if AliveThisMinute(trackedCampaigns[id], minuteInDay) then 1 else 0)
      ensures forall id :: id in oldCampaigns ==> oldCampaigns[id].stats.minutesAliveToday == retired[id]
      ensures unchanged(this)
    {
      var i := 0;
      while i < |trackedOrder|
        invariant i <= |trackedOrder| && Valid()
        invariant trackedCampaigns == old(trackedCampaigns) && oldCampaigns == old(oldCampaigns)
        invariant StatsRepr == old(StatsRepr) && trackedOrder == old(trackedOrder)
        invariant forall id :: id in trackedCampaigns ==>
          && id in alive
          && StatsOf(id).minutesAliveToday
             == alive[id] + (if id in trackedOrder[..i] && AliveThisMinute(trackedCampaigns[id], minuteInDay) then 1 else 0)
        invariant forall id :: id in oldCampaigns ==> id in retired && oldCampaigns[id].stats.minutesAliveToday == retired[id]
      {
        CountMinuteAlive(i, minuteInDay, alive, retired);
        i := i + 1;
      }
      assert trackedOrder[..i] == trackedOrder;
      assert forall id :: id in trackedCampaigns ==> id in trackedOrder;
    }

    /** A campaign takes part in the next minute's auctions when it is under
        its daily budget and the day is not over. */
    predicate AliveThisMinute(c: Campaign, minuteInDay: nat)
      reads c.stats`totalSpentToday
    {
      AliveAt(c.stats.totalSpentToday, c.dailyBudget, minuteInDay)
    }

    /** The `i`-th running campaign's part of the end-of-minute update. */
    method CountMinuteAlive(i: nat, minuteInDay: nat, ghost alive: map<string, nat>, ghost retired: map<string, nat>)
      requires i < |trackedOrder| && Valid()
      requires forall id :: id in trackedCampaigns ==>
        && id in alive
        && StatsOf(id).minutesAliveToday
           == alive[id] + (if id in trackedOrder[..i] && AliveThisMinute(trackedCampaigns[id], minuteInDay) then 1 else 0)
      requires forall id :: id in oldCampaigns ==> id in retired && oldCampaigns[id].stats.minutesAliveToday == retired[id]
      modifies StatsRepr`minutesAliveToday
      ensures Valid()
      ensures forall id :: id in trackedCampaigns ==>
        && id in alive
        && StatsOf(id).minutesAliveToday
           == alive[id] + (if id in trackedOrder[..i + 1] && AliveThisMinute(trackedCampaigns[id], minuteInDay) then 1 else 0)
      ensures forall id :: id in oldCampaigns ==> id in retired && oldCampaigns[id].stats.minutesAliveToday == retired[id]
      ensures trackedCampaigns == old(trackedCampaigns) && oldCampaigns == old(oldCampaigns) && StatsRepr == old(StatsRepr)
      ensures trackedOrder == old(trackedOrder)
    {
      var id := trackedOrder[i];
      var c := trackedCampaigns[id];
      assert trackedOrder[..i + 1] == trackedOrder[..i] + [id];
      assert id !in trackedOrder[..i];
      if c.stats.totalSpentToday < c.dailyBudget && minuteInDay < Configuration.NumMinutesInDay - 1 {
        IncrementMinutesAlive(id);
      }
    }

    /** One more minute alive for the running campaign `id`. */
    method IncrementMinutesAlive(id: string)
      requires Valid() && id in trackedCampaigns
      modifies StatsOf(id)`minutesAliveToday
      ensures Valid()
      ensures StatsOf(id).minutesAliveToday == old(StatsOf(id).minutesAliveToday) + 1
      ensures trackedCampaigns == old(trackedCampaigns) && oldCampaigns == old(oldCampaigns) && StatsRepr == old(StatsRepr)
      ensures forall k :: k in trackedCampaigns && k != id ==> StatsOf(k) != StatsOf(id)
      ensures forall k :: k in oldCampaigns ==> oldCampaigns[k].stats != StatsOf(id)
    {
      ghost var registry := RegistryValid();
      ghost var pacing := PacingAgrees();
      var s := StatsOf(id);
      s.minutesAliveToday := s.minutesAliveToday + 1;
      assert registry == RegistryValid();
      assert pacing == PacingAgrees();
    }

    /** The day rollover of the running campaign `id` on day `days`. */
    method RollOverStats(id: string, days: nat)
      requires Valid() && id in trackedCampaigns
      modifies StatsOf(id)
      ensures Valid()
      ensures StatsOf(id).View()
              == RolledOver(old(StatsOf(id).View()), days, StatsOf(id).numSpendEntriesPerDay, StatsOf(id).numWinEntriesPerDay)
      ensures trackedCampaigns == old(trackedCampaigns) && oldCampaigns == old(oldCampaigns) && StatsRepr == old(StatsRepr)
      ensures trackedOrder == old(trackedOrder) && oldOrder == old(oldOrder) && Repr == old(Repr)
      ensures forall k :: k in trackedCampaigns && k != id ==> StatsOf(k) != StatsOf(id)
      ensures forall k :: k in oldCampaigns ==> oldCampaigns[k].stats != StatsOf(id)
    {
      var s := StatsOf(id);
      s.PrepareForNewDay(days);
    }

    /** Moves the running campaign `id`, whose run period is over, to the
        retired campaigns, keeping the order of the others. */
    method Retire(id: string)
      requires Valid() && id in trackedCampaigns && StatsOf(id).daysLeftToRun == 0
      modifies `trackedCampaigns, `trackedOrder, `oldCampaigns, `oldOrder
      ensures Valid()
      ensures trackedCampaigns == old(trackedCampaigns) - {id} && trackedOrder == Without(old(trackedOrder), id)
      ensures oldCampaigns == old(oldCampaigns)[id := old(trackedCampaigns)[id]] && oldOrder == old(oldOrder) + [id]
      ensures StatsRepr == old(StatsRepr) && Repr == old(Repr)
    {
      MoveKeepsKeys(trackedCampaigns, oldCampaigns, id);
      MoveToRetired(id);
    }

    /** The registry part of `Retire`. */
    method MoveToRetired(id: string)
      requires RegistryValid() && id in trackedCampaigns && trackedCampaigns[id].stats.daysLeftToRun == 0
      modifies `trackedCampaigns, `trackedOrder, `oldCampaigns, `oldOrder
      ensures RegistryValid()
      ensures trackedCampaigns == old(trackedCampaigns) - {id} && trackedOrder == Without(old(trackedOrder), id)
      ensures oldCampaigns == old(oldCampaigns)[id := old(trackedCampaigns)[id]] && oldOrder == old(oldOrder) + [id]
    {
      RetireKeepsRegistry(trackedCampaigns, trackedOrder, oldCampaigns, oldOrder, Repr, StatsRepr, id);
      ghost var valid := Registry(trackedCampaigns - {id}, Without(trackedOrder, id),
                                  oldCampaigns[id := trackedCampaigns[id]], oldOrder + [id], Repr, StatsRepr);
      trackedCampaigns, trackedOrder, oldCampaigns, oldOrder :=
        trackedCampaigns - {id}, Without(trackedOrder, id), oldCampaigns[id := trackedCampaigns[id]], oldOrder + [id];
      assert valid == RegistryValid();
    }

    /** Every campaign of `order` went from its record in `before` to its
        record in `after` by one report, without a raise, of its pending
        spend in `pending`. */
    ghost predicate AllReported(after: map<string, Mystique.Pacing>, before: map<string, Mystique.Pacing>, order: seq<string>,
                                strategy: TargetSlope.StrategyType, pending: map<string, real>, minuteInDay: nat)
    {
      forall k :: 0 <= k < |order| ==>
        && order[k] in after && order[k] in before
        && Mystique.ReportedFrom(after[order[k]], before[order[k]], strategy, Get(pending, order[k]), minuteInDay, true)
    }

    /** `end_iteration`: the end-of-minute statistics, then the pacing
        update, then, after the last minute of the day, the end-of-day
        update. `ok` is false where the source raises (the pacing
        controller or the end-of-day assertion). No campaign is lost, and
        the retired ones are left untouched. Before the last minute of the
        day no campaign changes between running and retired, and each
        running campaign counts one more minute alive exactly when it is
        under its daily budget. With a controller and no raise, every
        running campaign's pending spend is popped and reported. After the
        last minute of the day, every running campaign is rolled over, and
        one is retired exactly when that used up its run period. */
    method EndIteration(clock: Clock.Clock) returns (ok: bool)
      requires Valid()
      modifies StatsRepr, `pendingPacingSpendUpdates, if pacingSystem == null then {} else pacingSystem.campaigns.Values
      modifies `trackedCampaigns, `trackedOrder, `oldCampaigns, `oldOrder
      ensures Valid() && StatsRepr == old(StatsRepr)
      ensures trackedCampaigns.Keys + oldCampaigns.Keys == old(trackedCampaigns.Keys + oldCampaigns.Keys)
      ensures forall id :: id in trackedCampaigns ==> id in old(trackedCampaigns) && trackedCampaigns[id] == old(trackedCampaigns[id])
      ensures forall id :: id in old(oldCampaigns) ==>
        && id in oldCampaigns && oldCampaigns[id] == old(oldCampaigns[id])
        && oldCampaigns[id].stats.View() == old(oldCampaigns[id].stats.View())
      ensures old(clock.MinuteInDay()) != Configuration.NumIterationsPerDay - 1 ==>
        && trackedCampaigns == old(trackedCampaigns) && oldCampaigns == old(oldCampaigns)
        && forall id :: id in trackedCampaigns ==>
             StatsOf(id).View()
             == MinuteCounted(old(StatsOf(id).View()), old(AliveThisMinute(trackedCampaigns[id], clock.MinuteInDay())))
      ensures pacingSystem == null ==> pendingPacingSpendUpdates == old(pendingPacingSpendUpdates)
      ensures pacingSystem != null && ok ==>
        && pacingSystem.campaigns == old(pacingSystem.campaigns)
        && pendingPacingSpendUpdates == old(pendingPacingSpendUpdates) - old(trackedCampaigns.Keys)
        && AllReported(Mystique.PacingsOf(pacingSystem), old(Mystique.PacingsOf(pacingSystem)), old(trackedOrder),
                       pacingSystem.strategy, old(pendingPacingSpendUpdates), old(clock.MinuteInDay()))
      ensures old(clock.MinuteInDay()) == Configuration.NumIterationsPerDay - 1 && ok ==>
        forall id :: id in old(trackedCampaigns) ==>
          && old(StatsOf(id).daysLeftToRun) >= 1
          && old(StatsOf(id)).View() == RolledOver(old(StatsOf(id).View()), old(clock.Days()),
                                                   old(StatsOf(id)).numSpendEntriesPerDay,
                                                   old(StatsOf(id)).numWinEntriesPerDay)
          && (id in trackedCampaigns <==> old(StatsOf(id).daysLeftToRun) > 1)
          && (id in oldCampaigns <==> old(StatsOf(id).daysLeftToRun) == 1)
    {
      var minute, days := clock.MinuteInDay(), clock.Days();
      ok := MinuteUpdates(clock);
      if !ok {
        return;
      }
      if minute == Configuration.NumIterationsPerDay - 1 {
        label BeforeDayEnd:
        ok := EndOfDayKeepingPacing(days);
        if pacingSystem != null {
          Mystique.PacingsUnchanged@BeforeDayEnd(pacingSystem);
        }
        if ok {
          forall id | id in old(trackedCampaigns)
            ensures old(StatsOf(id).View()) == old@BeforeDayEnd(StatsOf(id).View())
            ensures old(StatsOf(id).daysLeftToRun) == old@BeforeDayEnd(StatsOf(id).daysLeftToRun)
          {
            assert !old(AliveThisMinute(trackedCampaigns[id], clock.MinuteInDay()));
          }
        }
      }
    }

    /** The per-minute part of `end_iteration`: the end-of-minute
        statistics, then the pacing update. */
    method MinuteUpdates(clock: Clock.Clock) returns (ok: bool)
      requires Valid()
      modifies StatsRepr`minutesAliveToday, `pendingPacingSpendUpdates
      modifies if pacingSystem == null then {} else pacingSystem.campaigns.Values
      ensures Valid()
      ensures trackedCampaigns == old(trackedCampaigns) && oldCampaigns == old(oldCampaigns) && StatsRepr == old(StatsRepr)
      ensures trackedOrder == old(trackedOrder)
      ensures forall id :: id in trackedCampaigns ==>
        StatsOf(id).View() == MinuteCounted(old(StatsOf(id).View()), old(AliveThisMinute(trackedCampaigns[id], clock.MinuteInDay())))
      ensures forall id :: id in oldCampaigns ==> oldCampaigns[id].stats.View() == old(oldCampaigns[id].stats.View())
      ensures pacingSystem == null ==> ok && pendingPacingSpendUpdates == old(pendingPacingSpendUpdates)
      ensures pacingSystem != null && ok ==>
        && pacingSystem.campaigns == old(pacingSystem.campaigns)
        && pendingPacingSpendUpdates == old(pendingPacingSpendUpdates) - old(trackedCampaigns.Keys)
        && AllReported(Mystique.PacingsOf(pacingSystem), old(Mystique.PacingsOf(pacingSystem)), trackedOrder,
                       pacingSystem.strategy, old(pendingPacingSpendUpdates), old(clock.MinuteInDay()))
    {
      var minute := clock.MinuteInDay();
      EndOfMinuteCampaignUpdates(minute);
      if pacingSystem != null {
        Mystique.PacingsUnchanged(pacingSystem);
      }
      ok := ReportPending(clock, if pacingSystem == null then map[] else old(Mystique.PacingsOf(pacingSystem)),
                          old(pendingPacingSpendUpdates), minute);
    }

    /** `_update_pacing_system`, stated over the controller's records by
        id: with a controller and no raise, every running campaign's
        pending spend is popped and reported; no statistics change. */
    method ReportPending(clock: Clock.Clock, ghost before: map<string, Mystique.Pacing>, ghost pending: map<string, real>,
                         ghost minuteInDay: nat)
      returns (ok: bool)
      requires Valid()
      requires pacingSystem != null ==> before == Mystique.PacingsOf(pacingSystem)
      requires pending == pendingPacingSpendUpdates && minuteInDay == clock.MinuteInDay()
      modifies `pendingPacingSpendUpdates, if pacingSystem == null then {} else pacingSystem.campaigns.Values
      ensures Valid()
      ensures trackedCampaigns == old(trackedCampaigns) && oldCampaigns == old(oldCampaigns) && StatsRepr == old(StatsRepr)
      ensures trackedOrder == old(trackedOrder)
      ensures unchanged(StatsRepr)
      ensures pacingSystem == null ==> ok && pendingPacingSpendUpdates == old(pendingPacingSpendUpdates)
      ensures pacingSystem != null && ok ==>
        && pacingSystem.campaigns == old(pacingSystem.campaigns)
        && pendingPacingSpendUpdates == old(pendingPacingSpendUpdates) - old(trackedCampaigns.Keys)
        && AllReported(Mystique.PacingsOf(pacingSystem), before, trackedOrder, pacingSystem.strategy, pending, minuteInDay)
    {
      ok := ReportPendingById(clock);
    }

    /** The pacing part of `ReportPending`. */
    method ReportPendingById(clock: Clock.Clock) returns (ok: bool)
      requires Valid()
      modifies `pendingPacingSpendUpdates, if pacingSystem == null then {} else pacingSystem.campaigns.Values
      ensures Valid()
      ensures pacingSystem == null ==> ok && pendingPacingSpendUpdates == old(pendingPacingSpendUpdates)
      ensures pacingSystem != null && ok ==>
        && pacingSystem.campaigns == old(pacingSystem.campaigns)
        && pendingPacingSpendUpdates == old(pendingPacingSpendUpdates) - old(trackedCampaigns.Keys)
        && AllReported(Mystique.PacingsOf(pacingSystem), old(Mystique.PacingsOf(pacingSystem)), trackedOrder,
                       pacingSystem.strategy, old(pendingPacingSpendUpdates), old(clock.MinuteInDay()))
    {
      if pacingSystem == null {
        var reported;
        ok, reported := UpdatePacingSystem(clock);
        return;
      }
      ghost var before := Mystique.PacingsOf(pacingSystem);
      ghost var pending := pendingPacingSpendUpdates;
      ghost var minute := clock.MinuteInDay();
      label Before:
      var reported;
      ok, reported := UpdatePacingSystem(clock);
      if ok {
        ghost var after := Mystique.PacingsOf(pacingSystem);
        forall k | 0 <= k < |trackedOrder|
          ensures trackedOrder[k] in after && trackedOrder[k] in before
          ensures Mystique.ReportedFrom(after[trackedOrder[k]], before[trackedOrder[k]], pacingSystem.strategy,
                                        Get(pending, trackedOrder[k]), minute, true)
        {
          var c := pacingSystem.campaigns[trackedOrder[k]];
          assert after[trackedOrder[k]] == Mystique.PacingOf(c);
          assert before[trackedOrder[k]] == old@Before(Mystique.PacingOf(c));
        }
      }
    }

    /** `_end_of_day_campaign_updates` on day `days`: every running
        campaign, in registration order, rolls its statistics over to a new
        day, and one whose run period is then over moves to the retired
        campaigns. A campaign that has overrun its run period fails the
        source's assertion (`ok` false) and ends the update. No campaign is
        lost or duplicated, and the retired ones are left untouched. */
    method EndOfDayCampaignUpdates(days: nat) returns (ok: bool)
      requires Valid()
      modifies StatsRepr, `trackedCampaigns, `trackedOrder, `oldCampaigns, `oldOrder
      ensures Valid() && StatsRepr == old(StatsRepr)
      ensures trackedCampaigns.Keys + oldCampaigns.Keys == old(trackedCampaigns.Keys + oldCampaigns.Keys)
      ensures forall id :: id in trackedCampaigns ==> id in old(trackedCampaigns) && trackedCampaigns[id] == old(trackedCampaigns[id])
      ensures forall id :: id in old(oldCampaigns) ==>
        && id in oldCampaigns && oldCampaigns[id] == old(oldCampaigns[id])
        && oldCampaigns[id].stats.View() == old(oldCampaigns[id].stats.View())
      ensures ok <==> forall id :: id in old(trackedCampaigns) ==> old(StatsOf(id).daysLeftToRun) >= 1
      ensures ok ==> forall id :: id in old(trackedCampaigns) ==>
        && old(StatsOf(id)).View() == RolledOver(old(StatsOf(id).View()), days, old(StatsOf(id)).numSpendEntriesPerDay,
                                                 old(StatsOf(id)).numWinEntriesPerDay)
        && (id in trackedCampaigns <==> old(StatsOf(id).daysLeftToRun) > 1)
        && (id in oldCampaigns <==> old(StatsOf(id).daysLeftToRun) == 1)
    {
      ghost var views := map id | id in trackedCampaigns :: StatsOf(id).View();
      ghost var retiredViews := map id | id in oldCampaigns :: oldCampaigns[id].stats.View();
      ghost var done, failed;
      ok, done, failed := EndDayAll(days, views, retiredViews);
    }

    /** `EndOfDayCampaignUpdates`, which leaves the pacing controller's
        records alone. */
    method EndOfDayKeepingPacing(days: nat) returns (ok: bool)
      requires Valid()
      modifies StatsRepr, `trackedCampaigns, `trackedOrder, `oldCampaigns, `oldOrder
      ensures Valid() && StatsRepr == old(StatsRepr)
      ensures trackedCampaigns.Keys + oldCampaigns.Keys == old(trackedCampaigns.Keys + oldCampaigns.Keys)
      ensures forall id :: id in trackedCampaigns ==> id in old(trackedCampaigns) && trackedCampaigns[id] == old(trackedCampaigns[id])
      ensures forall id :: id in old(oldCampaigns) ==>
        && id in oldCampaigns && oldCampaigns[id] == old(oldCampaigns[id])
        && oldCampaigns[id].stats.View() == old(oldCampaigns[id].stats.View())
      ensures pacingSystem != null ==> unchanged(pacingSystem) && unchanged(pacingSystem.campaigns.Values)
      ensures ok <==> forall id :: id in old(trackedCampaigns) ==> old(StatsOf(id).daysLeftToRun) >= 1
      ensures ok ==> forall id :: id in old(trackedCampaigns) ==>
        && old(StatsOf(id)).View() == RolledOver(old(StatsOf(id).View()), days, old(StatsOf(id)).numSpendEntriesPerDay,
                                                 old(StatsOf(id)).numWinEntriesPerDay)
        && (id in trackedCampaigns <==> old(StatsOf(id).daysLeftToRun) > 1)
        && (id in oldCampaigns <==> old(StatsOf(id).daysLeftToRun) == 1)
    {
      ok := EndOfDayCampaignUpdates(days);
    }

    /** The end-of-day update of the running campaigns in registration
        order, from the statistics `views` they start from (and the retired
        ones from `retiredViews`); `done` are the campaigns it completed. */
    method EndDayAll(days: nat, ghost views: map<string, StatsView>, ghost retiredViews: map<string, StatsView>)
      returns (ok: bool, ghost done: set<string>, ghost failed: string)
      requires Valid()
      requires ViewsAt(trackedCampaigns, views, {}, days) && ViewsAt(oldCampaigns, retiredViews, {}, days)
      modifies StatsRepr, `trackedCampaigns, `trackedOrder, `oldCampaigns, `oldOrder
      ensures Valid() && StatsRepr == old(StatsRepr)
      ensures ok ==> done == old(trackedCampaigns).Keys
      ensures !ok ==> failed in old(trackedCampaigns) && views[failed].daysLeftToRun < 1
      ensures ViewsAt(old(oldCampaigns), retiredViews, {}, days)
      ensures ok ==> ViewsAt(old(trackedCampaigns), views, done, days)
      ensures EndDayMembers(trackedCampaigns, oldCampaigns, old(trackedCampaigns), old(oldCampaigns), views, done)
    {
      ghost var tracked0, retired0 := trackedCampaigns, oldCampaigns;
      done, failed := {}, "";
      var order := trackedOrder;
      var i := 0;
      while i < |order|
        invariant i <= |order| && Valid() && StatsRepr == old(StatsRepr)
        invariant OrderOf(tracked0, order) && StatsDistinct(tracked0) && StatsApart(tracked0, retired0)
        invariant tracked0.Keys !! retired0.Keys
        invariant forall k :: 0 <= k < |order| ==> (order[k] in done <==> k < i)
        invariant ViewsAt(tracked0, views, done, days) && ViewsAt(retired0, retiredViews, {}, days)
        invariant EndDayMembers(trackedCampaigns, oldCampaigns, tracked0, retired0, views, done)
      {
        var id := order[i];
        ok := EndDayStep(id, days, views, tracked0, retired0, retiredViews, done);
        if !ok {
          failed := id;
          return;
        }
        forall k | 0 <= k < |order| ensures order[k] in done + {id} <==> k < i + 1 {
          if k != i {
            assert order[k] != id;
          }
        }
        done := done + {id};
        i := i + 1;
      }
      forall id | id in tracked0 ensures id in done {
        var k :| 0 <= k < |order| && order[k] == id;
      }
      ok := true;
    }

    /** `EndDayOf` for the next campaign of the end-of-day loop, in terms of
        the campaigns and statistics the loop started from. */
    method EndDayStep(id: string, days: nat, ghost views: map<string, StatsView>,
                      ghost tracked0: map<string, Campaign>, ghost retired0: map<string, Campaign>,
                      ghost retiredViews: map<string, StatsView>, ghost done: set<string>) returns (ok: bool)
      requires Valid() && id in tracked0 && id !in done && tracked0.Keys !! retired0.Keys
      requires StatsDistinct(tracked0) && StatsApart(tracked0, retired0)
      requires ViewsAt(tracked0, views, done, days) && ViewsAt(retired0, retiredViews, {}, days)
      requires EndDayMembers(trackedCampaigns, oldCampaigns, tracked0, retired0, views, done)
      modifies tracked0[id].stats, `trackedCampaigns, `trackedOrder, `oldCampaigns, `oldOrder
      ensures Valid() && StatsRepr == old(StatsRepr)
      ensures ok <==> views[id].daysLeftToRun >= 1
      ensures ViewsAt(retired0, retiredViews, {}, days)
      ensures ok ==> ViewsAt(tracked0, views, done + {id}, days)
      ensures ok ==> EndDayMembers(trackedCampaigns, oldCampaigns, tracked0, retired0, views, done + {id})
      ensures !ok ==> EndDayMembers(trackedCampaigns, oldCampaigns, tracked0, retired0, views, done)
    {
      ghost var tracked, retired := trackedCampaigns, oldCampaigns;
      assert id in trackedCampaigns && trackedCampaigns[id] == tracked0[id];
      ok := EndDayViews(id, days, views, tracked0, retired0, retiredViews, done);
      if ok {
        EndDayMembersStep(tracked, retired, tracked0, retired0, views, done, id, trackedCampaigns, oldCampaigns);
      }
    }

    /** `EndDayFramed` with its effect on the statistics stated through
        `ViewsAt`. */
    method EndDayViews(id: string, days: nat, ghost views: map<string, StatsView>,
                       ghost tracked0: map<string, Campaign>, ghost retired0: map<string, Campaign>,
                       ghost retiredViews: map<string, StatsView>, ghost done: set<string>) returns (ok: bool)
      requires Valid() && id in tracked0 && id !in done && id in trackedCampaigns && trackedCampaigns[id] == tracked0[id]
      requires StatsDistinct(tracked0) && StatsApart(tracked0, retired0)
      requires ViewsAt(tracked0, views, done, days) && ViewsAt(retired0, retiredViews, {}, days)
      modifies tracked0[id].stats, `trackedCampaigns, `trackedOrder, `oldCampaigns, `oldOrder
      ensures Valid() && StatsRepr == old(StatsRepr)
      ensures ok <==> views[id].daysLeftToRun >= 1
      ensures if ok && views[id].daysLeftToRun == 1
        then trackedCampaigns == old(trackedCampaigns) - {id} && oldCampaigns == old(oldCampaigns)[id := tracked0[id]]
        else trackedCampaigns == old(trackedCampaigns) && oldCampaigns == old(oldCampaigns)
      ensures ViewsAt(retired0, retiredViews, {}, days)
      ensures ok ==> ViewsAt(tracked0, views, done + {id}, days)
    {
      ok := EndDayFramed(id, days, tracked0, retired0);
      forall k | k in retired0 ensures retired0[k].stats.View() == retiredViews[k] {
        assert old(retired0[k].stats.View()) == retiredViews[k];
      }
      if ok {
        forall k | k in tracked0
          ensures k in views
          ensures tracked0[k].stats.View()
                  == (if k in done + {id} then RolledOver(views[k], days, tracked0[k].stats.numSpendEntriesPerDay,
                                                          tracked0[k].stats.numWinEntriesPerDay)
                      else views[k])
        {
          if k != id {
            assert old(tracked0[k].stats.View()) == tracked0[k].stats.View();
          }
        }
      }
    }

    /** `EndDayOf`, with what it leaves alone spelled out for the campaigns
        of `tracked0` and `retired0`: no statistics but its own campaign's
        change. */
    method EndDayFramed(id: string, days: nat, ghost tracked0: map<string, Campaign>, ghost retired0: map<string, Campaign>)
      returns (ok: bool)
      requires Valid() && id in tracked0 && id in trackedCampaigns && trackedCampaigns[id] == tracked0[id]
      requires StatsDistinct(tracked0) && StatsApart(tracked0, retired0)
      modifies tracked0[id].stats, `trackedCampaigns, `trackedOrder, `oldCampaigns, `oldOrder
      ensures Valid() && StatsRepr == old(StatsRepr)
      ensures ok <==> old(tracked0[id].stats.daysLeftToRun) >= 1
      ensures tracked0[id].stats.View()
              == RolledOver(old(tracked0[id].stats.View()), days, tracked0[id].stats.numSpendEntriesPerDay,
                            tracked0[id].stats.numWinEntriesPerDay)
      ensures if ok && old(tracked0[id].stats.daysLeftToRun) == 1
        then trackedCampaigns == old(trackedCampaigns) - {id} && oldCampaigns == old(oldCampaigns)[id := tracked0[id]]
        else trackedCampaigns == old(trackedCampaigns) && oldCampaigns == old(oldCampaigns)
      ensures forall k :: k in tracked0 && k != id ==> tracked0[k].stats.View() == old(tracked0[k].stats.View())
      ensures forall k :: k in retired0 ==> retired0[k].stats.View() == old(retired0[k].stats.View())
    {
      var s := tracked0[id].stats;
      ok := EndDayOf(id, days);
      forall k | k in tracked0 && k != id ensures tracked0[k].stats.View() == old(tracked0[k].stats.View()) {
        assert tracked0[k].stats != s;
      }
      forall k | k in retired0 ensures retired0[k].stats.View() == old(retired0[k].stats.View()) {
        assert retired0[k].stats != s;
      }
    }

    /** One running campaign's part of `_end_of_day_campaign_updates`: its
        rollover, the check that its run period is not overrun (`ok` false
        when it is), and its retirement when no days are left. */
    method EndDayOf(id: string, days: nat) returns (ok: bool)
      requires Valid() && id in trackedCampaigns
      modifies StatsOf(id), `trackedCampaigns, `trackedOrder, `oldCampaigns, `oldOrder
      ensures Valid() && StatsRepr == old(StatsRepr)
      ensures ok <==> old(StatsOf(id).daysLeftToRun) >= 1
      ensures old(StatsOf(id)).View()
              == RolledOver(old(StatsOf(id).View()), days, old(StatsOf(id)).numSpendEntriesPerDay,
                            old(StatsOf(id)).numWinEntriesPerDay)
      ensures if ok && old(StatsOf(id).daysLeftToRun) == 1
        then trackedCampaigns == old(trackedCampaigns) - {id} && oldCampaigns == old(oldCampaigns)[id := old(trackedCampaigns[id])]
        else trackedCampaigns == old(trackedCampaigns) && oldCampaigns == old(oldCampaigns)
    {
      var s := StatsOf(id);
      RollOverStats(id, days);
      if s.daysLeftToRun < 0 {
        return false;
      }
      ok := true;
      if s.daysLeftToRun == 0 {
        Retire(id);
      }
    }

    /** `_update_pacing_system`: with a pacing controller, each running
        campaign in registration order has its pending spend (0 when there
        is none) popped and reported to the controller. A raise in the
        controller (`ok` false) ends the update after the raising
        campaign; `reported` counts the campaigns reached, and the later
        ones keep both their pending entry and their controller record.
        The controller never reads the pending spends, so the model reports
        first and then pops the entries of the campaigns it reached. */
    method UpdatePacingSystem(clock: Clock.Clock) returns (ok: bool, reported: nat)
      requires Valid()
      modifies `pendingPacingSpendUpdates, if pacingSystem == null then {} else pacingSystem.campaigns.Values
      ensures Valid()
      ensures pacingSystem == null ==> ok && reported == 0 && pendingPacingSpendUpdates == old(pendingPacingSpendUpdates)
      ensures pacingSystem != null ==> pacingSystem.campaigns == old(pacingSystem.campaigns)
      ensures pacingSystem != null ==>
        reported <= |trackedOrder| && (ok ==> reported == |trackedOrder|) && (!ok ==> 0 < reported)
      ensures pacingSystem != null && pacingSystem.strategy == TargetSlope.Linear ==> ok
      ensures pacingSystem != null ==>
        pendingPacingSpendUpdates == PopAll(old(pendingPacingSpendUpdates), trackedOrder[..reported])
      ensures pacingSystem != null && ok ==>
        pendingPacingSpendUpdates == old(pendingPacingSpendUpdates) - old(trackedCampaigns.Keys)
      ensures pacingSystem != null ==> forall k :: 0 <= k < reported ==>
        Mystique.ReportedFrom(Mystique.PacingOf(pacingSystem.campaigns[trackedOrder[k]]),
                              old(Mystique.PacingOf(pacingSystem.campaigns[trackedOrder[k]])),
                              pacingSystem.strategy, Get(old(pendingPacingSpendUpdates), trackedOrder[k]),
                              old(clock.MinuteInDay()), ok || k < reported - 1)
      ensures pacingSystem != null ==> forall k :: reported <= k < |trackedOrder| ==>
        Mystique.PacingOf(pacingSystem.campaigns[trackedOrder[k]])
        == old(Mystique.PacingOf(pacingSystem.campaigns[trackedOrder[k]]))
    {
      ok, reported := true, 0;
      if pacingSystem == null {
        return;
      }
      ghost var pending, order := pendingPacingSpendUpdates, trackedOrder;
      PopOrderRemovesKeys(pending, trackedCampaigns, order);
      ok, reported := ReportAll(clock.MinuteInDay());
      if ok {
        assert order[..reported] == order;
        assert pendingPacingSpendUpdates == PopAll(pending, order);
      }
    }

    /** `pending_pacing_spend_updates.pop(id, 0)` for the first `n` running
        campaigns in registration order. */
    method PopRunning(n: nat)
      requires pacingSystem != null && pacingSystem.Valid() && this !in PacingObjects() && RegistryValid()
      requires n <= |trackedOrder|
      modifies `pendingPacingSpendUpdates
      ensures pacingSystem.Valid() && this !in PacingObjects() && RegistryValid()
      ensures pendingPacingSpendUpdates == PopAll(old(pendingPacingSpendUpdates), trackedOrder[..n])
    {
      ghost var registry := Registry(trackedCampaigns, trackedOrder, oldCampaigns, oldOrder, Repr, StatsRepr);
      ghost var pacing := pacingSystem.Valid();
      pendingPacingSpendUpdates := PopAll(pendingPacingSpendUpdates, trackedOrder[..n]);
      assert registry == Registry(trackedCampaigns, trackedOrder, oldCampaigns, oldOrder, Repr, StatsRepr);
      assert pacing == pacingSystem.Valid();
    }

    /** The running campaigns' pending spends (0 for those without one)
        handed to the controller's `end_iteration` in registration order,
        and the entries of the `n` campaigns reached popped; nothing else
        of the serving system changes. */
    method ReportAll(minuteInDay: nat) returns (ok: bool, n: nat)
      requires pacingSystem != null && pacingSystem.Valid() && this !in PacingObjects() && RegistryValid()
      requires minuteInDay < Configuration.NumIterationsPerDay
      requires forall k :: 0 <= k < |trackedOrder| ==> trackedOrder[k] in pacingSystem.campaigns
      requires forall a, b :: 0 <= a < b < |trackedOrder| ==> trackedOrder[a] != trackedOrder[b]
      modifies `pendingPacingSpendUpdates, pacingSystem.campaigns.Values
      ensures pacingSystem.Valid() && this !in PacingObjects() && RegistryValid()
      ensures trackedCampaigns == old(trackedCampaigns) && oldCampaigns == old(oldCampaigns)
      ensures StatsRepr == old(StatsRepr) && trackedOrder == old(trackedOrder)
      ensures pacingSystem.campaigns == old(pacingSystem.campaigns)
      ensures n <= |trackedOrder| && (ok ==> n == |trackedOrder|) && (!ok ==> 0 < n)
      ensures pacingSystem.strategy == TargetSlope.Linear ==> ok
      ensures pendingPacingSpendUpdates == PopAll(old(pendingPacingSpendUpdates), trackedOrder[..n])
      ensures forall k :: 0 <= k < n ==>
        Mystique.ReportedFrom(Mystique.PacingOf(pacingSystem.campaigns[trackedOrder[k]]),
                              old(Mystique.PacingOf(pacingSystem.campaigns[trackedOrder[k]])),
                              pacingSystem.strategy, Get(old(pendingPacingSpendUpdates), trackedOrder[k]), minuteInDay,
                              ok || k < n - 1)
      ensures forall k :: n <= k < |trackedOrder| ==>
        Mystique.PacingOf(pacingSystem.campaigns[trackedOrder[k]])
        == old(Mystique.PacingOf(pacingSystem.campaigns[trackedOrder[k]]))
    {
      ok, n := Report(pendingPacingSpendUpdates, minuteInDay);
      PopRunning(n);
    }

    /** The controller's `end_iteration` for each running campaign in turn,
        each handed its entry of `pending` (0 when there is none), until
        one raises; nothing of the serving system changes. */
    method Report(pending: map<string, real>, minuteInDay: nat) returns (ok: bool, n: nat)
      requires pacingSystem != null && pacingSystem.Valid() && this !in PacingObjects() && RegistryValid()
      requires minuteInDay < Configuration.NumIterationsPerDay
      requires forall k :: 0 <= k < |trackedOrder| ==> trackedOrder[k] in pacingSystem.campaigns
      requires forall a, b :: 0 <= a < b < |trackedOrder| ==> trackedOrder[a] != trackedOrder[b]
      modifies pacingSystem.campaigns.Values
      ensures pacingSystem.Valid() && this !in PacingObjects() && RegistryValid()
      ensures trackedCampaigns == old(trackedCampaigns) && oldCampaigns == old(oldCampaigns)
      ensures StatsRepr == old(StatsRepr) && trackedOrder == old(trackedOrder)
      ensures pendingPacingSpendUpdates == old(pendingPacingSpendUpdates)
      ensures pacingSystem.campaigns == old(pacingSystem.campaigns)
      ensures n <= |trackedOrder| && (ok ==> n == |trackedOrder|) && (!ok ==> 0 < n)
      ensures pacingSystem.strategy == TargetSlope.Linear ==> ok
      ensures forall k :: 0 <= k < n ==>
        Mystique.ReportedFrom(Mystique.PacingOf(pacingSystem.campaigns[trackedOrder[k]]),
                              old(Mystique.PacingOf(pacingSystem.campaigns[trackedOrder[k]])),
                              pacingSystem.strategy, Get(pending, trackedOrder[k]), minuteInDay, ok || k < n - 1)
      ensures forall k :: n <= k < |trackedOrder| ==>
        Mystique.PacingOf(pacingSystem.campaigns[trackedOrder[k]])
        == old(Mystique.PacingOf(pacingSystem.campaigns[trackedOrder[k]]))
    {
      ghost var registry := Registry(trackedCampaigns, trackedOrder, oldCampaigns, oldOrder, Repr, StatsRepr);
      var order := trackedOrder;
      var spends := seq(|order|, k requires 0 <= k < |order| => Get(pending, order[k]));
      ok, n := pacingSystem.EndIterations(order, spends, minuteInDay);
      assert registry == Registry(trackedCampaigns, trackedOrder, oldCampaigns, oldOrder, Repr, StatsRepr);
    }
  }
}

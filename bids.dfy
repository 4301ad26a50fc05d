/** Simulation-wide settings of src/configuration.py and src/constants.py
    that the marketplace code reads. */
module Configuration {
  const NumIterationsPerDay: nat := 1440
  const NumMinutesInDay: nat := 24 * 60
  /** No campaign bids, and no auction is won, below this amount. */
  const CampaignMinimalBid: real := 0.01
}

/** Bids and their ordering (src/system/bid.py). Python compares a bid with
    `None` as well, so the right operand is an Option. */
module Bids {

  datatype Option<T> = None | Some(value: T)

  datatype Bid = Bid(campaignId: string, amount: real)

  /** `==`: same campaign and same amount; nothing equals None. */
  predicate Eq(a: Bid, other: Option<Bid>): (r: bool)
    ensures r <==> other == Some(a)
  {
    other.Some? && a.campaignId == other.value.campaignId && a.amount == other.value.amount
  }

  /** `<`: amounts only; false against None. */
  predicate Lt(a: Bid, other: Option<Bid>)
  {
    other.Some? && a.amount < other.value.amount
  }

  /** `<` is a strict order on bids: never between equal bids, never both
      ways, and transitive. */
  lemma LtStrictOrder(a: Bid, b: Bid, c: Bid)
    ensures Lt(a, Some(b)) ==> !Eq(a, Some(b)) && !Lt(b, Some(a))
    ensures Lt(a, Some(b)) && Lt(b, Some(c)) ==> Lt(a, Some(c))
    ensures !Lt(a, None)
  {
  }

  /** `>` as the total-ordering decorator derives it from `<` and `==`. */
  predicate Gt(a: Bid, other: Option<Bid>)
  {
    !Lt(a, other) && !Eq(a, other)
  }

  /** Equality is structural equality of the two fields. */
  lemma EqIsSameBid(a: Bid, b: Bid)
    ensures Eq(a, Some(b)) <==> a == b
  {
  }

  /** The derived `>`: a larger amount, or the same amount from another
      campaign; every bid is greater than None. */
  lemma GtCharacterised(a: Bid, other: Option<Bid>)
    ensures other.None? ==> Gt(a, other)
    ensures other.Some? ==>
      (Gt(a, other) <==> a.amount > other.value.amount
                         || (a.amount == other.value.amount && a.campaignId != other.value.campaignId))
  {
  }

  /** Two bids of the same amount from different campaigns are each
      greater than the other. */
  lemma TiedBidsBothGreater(a: Bid, b: Bid)
    requires a.amount == b.amount && a.campaignId != b.campaignId
    ensures Gt(a, Some(b)) && Gt(b, Some(a))
    ensures !Lt(a, Some(b)) && !Lt(b, Some(a))
  {
  }

  /** Python's `max` over a non-empty list: a later element replaces the
      running maximum when it compares greater. The winner has the largest
      amount, and no later bid has that amount: among tied bids the last
      one wins. */
  function MaxBid(bids: seq<Bid>): (r: Bid)
    requires |bids| > 0
    ensures r in bids
    ensures forall i :: 0 <= i < |bids| ==> bids[i].amount <= r.amount
    ensures exists k :: 0 <= k < |bids| && bids[k] == r && forall j :: k < j < |bids| ==> bids[j].amount < r.amount
  {
    if |bids| == 1 then bids[0]
    else
      var m := MaxBid(bids[..|bids| - 1]);
      var x := bids[|bids| - 1];
      if Gt(x, Some(m)) then x else m
  }

  /** Python's `min`: a later element replaces the running minimum only
      when it compares smaller, so among tied bids the first one wins. */
  function MinBid(bids: seq<Bid>): (r: Bid)
    requires |bids| > 0
    ensures forall i :: 0 <= i < |bids| ==> r.amount <= bids[i].amount
    ensures exists k :: 0 <= k < |bids| && bids[k] == r && forall j :: 0 <= j < k ==> bids[j].amount > r.amount
  {
    if |bids| == 1 then bids[0]
    else
      var m := MinBid(bids[..|bids| - 1]);
      var x := bids[|bids| - 1];
      if Lt(x, Some(m)) then x else m
  }

  /** For two tied bids from different campaigns, `max` picks the second. */
  lemma MaxOfTiedPairIsSecond(a: Bid, b: Bid)
    requires a.amount == b.amount && a.campaignId != b.campaignId
    ensures MaxBid([a, b]) == b && MinBid([a, b]) == a
  {
    assert [a, b][..1] == [a];
  }
}

/** The first-price auction (src/system/auction.py). */
module Auction {
  import opened Bids
  import Configuration

  datatype AuctionWinner = AuctionWinner(bid: Bid, payment: real)

  /** An auction carries the properties of the user it is held for. */
  datatype AuctionFP = AuctionFP(userProperties: map<string, int>)

  /** No winner without bids or when the highest bid is below the minimal
      bid; otherwise the single winner is the highest bid, paying its own
      amount. */
  function Run(bids: seq<Bid>): (r: seq<AuctionWinner>)
    ensures |r| <= 1
    ensures |bids| == 0 ==> r == []
    ensures |r| == 1 ==>
      && r[0].bid in bids
      && r[0].payment == r[0].bid.amount
      && Configuration.CampaignMinimalBid <= r[0].payment
      && (forall i :: 0 <= i < |bids| ==> bids[i].amount <= r[0].payment)
    ensures r == [] <==> forall i :: 0 <= i < |bids| ==> bids[i].amount < Configuration.CampaignMinimalBid
  {
    if |bids| == 0 then []
    else
      var winningBid := MaxBid(bids);
      if winningBid.amount < Configuration.CampaignMinimalBid then []
      else [AuctionWinner(winningBid, winningBid.amount)]
  }

  /** The winner is the last of the bids tied at the highest amount. */
  lemma WinnerIsLastOfTied(bids: seq<Bid>, i: nat)
    requires i < |bids| && |Run(bids)| == 1
    requires bids[i].amount == Run(bids)[0].payment
    ensures bids[i] == Run(bids)[0].bid || exists j :: i < j < |bids| && bids[j] == Run(bids)[0].bid
  {
    var w := MaxBid(bids);
    var k :| 0 <= k < |bids| && bids[k] == w && forall j :: k < j < |bids| ==> bids[j].amount < w.amount;
    assert i <= k;
  }
}

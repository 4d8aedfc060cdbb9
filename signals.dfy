/**
 * The market classifiers: the three-vote trend verdict of /trend, the rule of
 * the periodic trend job, the ask/bid pressure of /orderbook and the order
 * flow of /flow, which compares against the snapshot kept from its previous
 * call. Prices, quantities and averages are exact reals.
 */
module Signals {
  import opened Wrappers
  import opened Orderbook

  /** What one signal line counts for: its label names the buying or the selling side, or neither. */
  datatype Vote = Up | Down | Neutral

  datatype Trend = Rising | Falling | Sideways

  /** What get_price_data returns: the last price, the 5- and 20-candle averages and the 24h average. */
  datatype PriceData = PriceData(current: real, ema5: real, ema20: real, avg24h: real)

  /** EMA line: "up" when EMA5 is above EMA20, "down" otherwise (equality included). */
  function EmaVote(ema5: real, ema20: real): Vote
  {
    if ema5 > ema20 then Up else Down
  }

  /** buy_vol / sell_vol, forced to 0 when there is no sell volume. */
  function BuySellRatio(buy: real, sell: real): (ratio: real)
    ensures sell > 0.0 ==> ratio * sell == buy
    ensures sell <= 0.0 ==> ratio == 0.0
  {
    if sell > 0.0 then buy / sell else 0.0
  }

  function RatioVote(ratio: real): Vote
  {
    if ratio > 1.2 then Up else if ratio < 0.8 then Down else Neutral
  }

  /** The 24h momentum in percent; None where dividing by a zero average raises. */
  function Momentum(current: real, avg24h: real): (m: Option<real>)
    ensures m.None? <==> avg24h == 0.0
    ensures m.Some? ==> m.value * avg24h == (current - avg24h) * 100.0
  {
    if avg24h == 0.0 then None else Some((current - avg24h) / avg24h * 100.0)
  }

  function MomentumVote(momentum: real): Vote
  {
    if momentum > 3.0 then Up else if momentum < -3.0 then Down else Neutral
  }

  function Ups(votes: seq<Vote>): (n: nat)
    ensures n <= |votes|
  {
    if votes == [] then 0 else (if votes[0] == Up then 1 else 0) + Ups(votes[1..])
  }

  function Downs(votes: seq<Vote>): (n: nat)
    ensures n <= |votes|
  {
    if votes == [] then 0 else (if votes[0] == Down then 1 else 0) + Downs(votes[1..])
  }

  /** Each signal counts for at most one side. */
  lemma {:induction false} VotesExclusive(votes: seq<Vote>)
    ensures Ups(votes) + Downs(votes) <= |votes|
  {
    if votes != [] {
      VotesExclusive(votes[1..]);
    }
  }

  /** The conclusion: UP on two up-votes, DOWN on two down-votes, SIDEWAY otherwise. */
  function Verdict(ema: Vote, ratio: Vote, momentum: Vote): (t: Trend)
    ensures t == Rising <==> Ups([ema, ratio, momentum]) >= 2
    ensures t == Falling <==> Downs([ema, ratio, momentum]) >= 2
    ensures t == Sideways <==> Ups([ema, ratio, momentum]) < 2 && Downs([ema, ratio, momentum]) < 2
  {
    var votes := [ema, ratio, momentum];
    VotesExclusive(votes);
    if Ups(votes) >= 2 then Rising
    else if Downs(votes) >= 2 then Falling
    else Sideways
  }

  /** The values /trend shows: the ratio, the momentum, each line's vote and the conclusion. */
  datatype TrendReport = TrendReport(ema: Vote, ratio: real, ratioVote: Vote, momentum: real, momentumVote: Vote, verdict: Trend)

  /** /trend over the bids and asks of the orderbook; None where the handler raises. */
  function TrendCheck(data: PriceData, bids: seq<Order>, asks: seq<Order>): (r: Option<TrendReport>)
    ensures r.None? <==> data.avg24h == 0.0
    ensures r.Some? ==> r.value.ratio == BuySellRatio(SumQty(bids), SumQty(asks))
    ensures r.Some? ==> (r.value.ema == Up <==> data.ema5 > data.ema20) && r.value.ema != Neutral
    ensures r.Some? ==> r.value.ratioVote == RatioVote(r.value.ratio)
    ensures r.Some? ==> r.value.momentum * data.avg24h == (data.current - data.avg24h) * 100.0
    ensures r.Some? ==> r.value.momentumVote == MomentumVote(r.value.momentum)
    ensures r.Some? ==> r.value.verdict == Verdict(r.value.ema, r.value.ratioVote, r.value.momentumVote)
  {
    var ema := EmaVote(data.ema5, data.ema20);
    var ratio := BuySellRatio(SumQty(bids), SumQty(asks));
    match Momentum(data.current, data.avg24h)
    case None => None
    case Some(m) =>
      Some(TrendReport(ema, ratio, RatioVote(ratio), m, MomentumVote(m),
                       Verdict(ema, RatioVote(ratio), MomentumVote(m))))
  }

  /** Multiplying both sides by a positive factor keeps a strict comparison. */
  lemma ScaleKeepsOrder(x: real, c: real, s: real)
    requires s > 0.0
    ensures x > c <==> x * s > c * s
    ensures x < c <==> x * s < c * s
  {
    if x > c {
      assert (x - c) * s > 0.0;
    } else if x < c {
      assert (c - x) * s > 0.0;
    }
  }

  /** Comparing a quotient with a constant is comparing the dividend with the scaled divisor. */
  lemma QuotientCompare(a: real, b: real, c: real)
    requires b > 0.0
    ensures a / b > c <==> a > c * b
    ensures a / b < c <==> a < c * b
  {
    var q := a / b;
    assert q * b == a;
    ScaleKeepsOrder(q, c, b);
  }

  /** With sell volume present, the ratio line compares buy volume with 1.2 and 0.8 times the sell volume. */
  lemma RatioVoteByVolumes(buy: real, sell: real)
    requires sell > 0.0
    ensures RatioVote(BuySellRatio(buy, sell)) == Up <==> buy > 1.2 * sell
    ensures RatioVote(BuySellRatio(buy, sell)) == Down <==> buy < 0.8 * sell
  {
    QuotientCompare(buy, sell, 1.2);
    QuotientCompare(buy, sell, 0.8);
  }

  /** With no sell volume the forced ratio 0 is a vote for the selling side. */
  lemma NoSellVolumeVotesDown(buy: real, sell: real)
    requires sell <= 0.0
    ensures RatioVote(BuySellRatio(buy, sell)) == Down
  {
  }

  /** With a positive average, the momentum line compares the price with 1.03 and 0.97 times the average. */
  lemma MomentumVoteByPrice(current: real, avg24h: real)
    requires avg24h > 0.0
    ensures MomentumVote(Momentum(current, avg24h).value) == Up <==> current > 1.03 * avg24h
    ensures MomentumVote(Momentum(current, avg24h).value) == Down <==> current < 0.97 * avg24h
  {
    var m := Momentum(current, avg24h).value;
    ScaleKeepsOrder(m, 3.0, avg24h);
    ScaleKeepsOrder(m, -3.0, avg24h);
  }

  /**
   * An empty ask side and EMA5 not above EMA20 make two votes for the selling
   * side, so /trend concludes "down" whatever the momentum.
   */
  lemma NoAsksAndWeakEmaFall(data: PriceData, bids: seq<Order>, asks: seq<Order>)
    requires data.avg24h != 0.0
    requires SumQty(asks) <= 0.0
    requires data.ema5 <= data.ema20
    ensures TrendCheck(data, bids, asks).value.verdict == Falling
  {
    NoSellVolumeVotesDown(SumQty(bids), SumQty(asks));
    var r := TrendCheck(data, bids, asks).value;
    assert Downs([r.ema, r.ratioVote, r.momentumVote]) >= 2;
  }

  /** The rule of the periodic trend job. */
  function JobTrend(data: PriceData): Trend
  {
    if data.ema5 > data.ema20 && data.current > data.ema5 then Rising
    else if data.ema5 < data.ema20 && data.current < data.ema20 then Falling
    else Sideways
  }

  /**
   * The job's "up" agrees with the EMA line of /trend and puts the price above
   * both averages; its "down" agrees with the EMA line too. On equal averages
   * the two disagree: the EMA line of /trend says "down", the job "sideway".
   */
  lemma JobTrendAgainstEmaVote(data: PriceData)
    ensures JobTrend(data) == Rising ==>
      EmaVote(data.ema5, data.ema20) == Up && data.current > data.ema5 && data.current > data.ema20
    ensures JobTrend(data) == Falling ==> EmaVote(data.ema5, data.ema20) == Down && data.current < data.ema20
    ensures data.ema5 == data.ema20 ==> JobTrend(data) == Sideways && EmaVote(data.ema5, data.ema20) == Down
  {
  }

  /** asks / bids on /orderbook: infinite when there is no bid quantity. */
  datatype AskBidRatio = Finite(value: real) | Infinite

  datatype Pressure = SellPressure | BuySupport | Balanced

  function AskBid(totalAsks: real, totalBids: real): AskBidRatio
  {
    if totalBids > 0.0 then Finite(totalAsks / totalBids) else Infinite
  }

  /** Infinity is above 1.2, so no bids means selling pressure. */
  function PressureOf(ratio: AskBidRatio): Pressure
  {
    match ratio
    case Infinite => SellPressure
    case Finite(v) => if v > 1.2 then SellPressure else if v < 0.8 then BuySupport else Balanced
  }

  /** The pressure line in terms of the totals themselves. */
  lemma PressureByTotals(totalAsks: real, totalBids: real)
    ensures totalBids <= 0.0 ==> PressureOf(AskBid(totalAsks, totalBids)) == SellPressure
    ensures totalBids > 0.0 ==>
      (PressureOf(AskBid(totalAsks, totalBids)) == SellPressure <==> totalAsks > 1.2 * totalBids)
    ensures totalBids > 0.0 ==>
      (PressureOf(AskBid(totalAsks, totalBids)) == BuySupport <==> totalAsks < 0.8 * totalBids)
  {
    if totalBids > 0.0 {
      QuotientCompare(totalAsks, totalBids, 1.2);
      QuotientCompare(totalAsks, totalBids, 0.8);
    }
  }

  /** What /orderbook shows: both totals, the ratio and its reading, the first five levels of each side. */
  datatype BookReport = BookReport(totalAsks: real, totalBids: real, ratio: AskBidRatio, pressure: Pressure,
                                   topAsks: seq<Order>, topBids: seq<Order>)

  function BookSummary(asks: seq<Order>, bids: seq<Order>): (r: BookReport)
    ensures r.totalAsks == SumQty(asks) && r.totalBids == SumQty(bids)
    ensures |r.topAsks| == Min(5, |asks|) && r.topAsks <= asks
    ensures |r.topBids| == Min(5, |bids|) && r.topBids <= bids
    ensures r.ratio == AskBid(r.totalAsks, r.totalBids)
    ensures r.ratio.Infinite? <==> r.totalBids <= 0.0
    ensures r.ratio.Finite? ==> r.ratio.value * r.totalBids == r.totalAsks
    ensures r.pressure == PressureOf(r.ratio)
  {
    var a := SumQty(asks);
    var b := SumQty(bids);
    BookReport(a, b, AskBid(a, b), PressureOf(AskBid(a, b)), asks[..Min(5, |asks|)], bids[..Min(5, |bids|)])
  }

  /**
   * /orderbook and /trend read the volumes through different thresholds:
   * asks 1.21 times the bids count as selling pressure on /orderbook while
   * the buy/sell ratio of /trend (about 0.83) stays neutral.
   */
  lemma PressureAndRatioCanDisagree()
    ensures PressureOf(AskBid(121.0, 100.0)) == SellPressure
    ensures RatioVote(BuySellRatio(100.0, 121.0)) == Neutral
  {
    PressureByTotals(121.0, 100.0);
    RatioVoteByVolumes(100.0, 121.0);
  }

  datatype FlowSignal = MoreSelling | MoreBuying | Unclear

  /** How /flow reads the change of both sides since the snapshot. */
  function FlowVerdict(asksDiff: real, bidsDiff: real): FlowSignal
  {
    if asksDiff > bidsDiff && asksDiff > 0.0 then MoreSelling
    else if bidsDiff > asksDiff && bidsDiff > 0.0 then MoreBuying
    else Unclear
  }

  /** The reading is unclear exactly when neither side grew more than the other while growing. */
  lemma FlowVerdictFacts(asksDiff: real, bidsDiff: real)
    ensures FlowVerdict(asksDiff, bidsDiff) == Unclear <==>
      asksDiff == bidsDiff || (asksDiff <= 0.0 && bidsDiff <= 0.0)
    ensures FlowVerdict(asksDiff, bidsDiff) == MoreSelling <==> FlowVerdict(bidsDiff, asksDiff) == MoreBuying
  {
  }

  /**
   * The reply of /flow: the first call only stores the snapshot; later ones
   * show the minutes since the snapshot, the old totals, the changes and the reading.
   */
  datatype FlowReply =
    | FirstSnapshot
    | Compared(minutes: real, oldAsks: real, oldBids: real, asksDiff: real, bidsDiff: real, signal: FlowSignal)

  /** The global `last_snapshot`: its totals and time, with time 0 meaning none taken yet. */
  class FlowMonitor {
    var asks: real
    var bids: real
    var time: int

    constructor ()
      ensures asks == 0.0 && bids == 0.0 && time == 0
    {
      asks, bids, time := 0.0, 0.0, 0;
    }

    /** /flow with the orderbook's two sides and the clock reading `now` in seconds. */
    method Flow(askLevels: seq<Order>, bidLevels: seq<Order>, now: int) returns (reply: FlowReply)
      modifies this
      ensures old(time) == 0 ==> reply == FirstSnapshot
      ensures old(time) != 0 ==>
        reply == Compared((now - old(time)) as real / 60.0, old(asks), old(bids),
                          SumQty(askLevels) - old(asks), SumQty(bidLevels) - old(bids),
                          FlowVerdict(SumQty(askLevels) - old(asks), SumQty(bidLevels) - old(bids)))
      ensures asks == SumQty(askLevels) && bids == SumQty(bidLevels) && time == now
    {
      var totalAsks := SumQty(askLevels);
      var totalBids := SumQty(bidLevels);
      if time == 0 {
        reply := FirstSnapshot;
      } else {
        var asksDiff := totalAsks - asks;
        var bidsDiff := totalBids - bids;
        reply := Compared((now - time) as real / 60.0, asks, bids, asksDiff, bidsDiff,
                          FlowVerdict(asksDiff, bidsDiff));
      }
      asks, bids, time := totalAsks, totalBids, now;
    }
  }

  /**
   * Two calls from a fresh start: the first only stores a snapshot (when its
   * clock is not 0), and the second reports the change against it.
   */
  method FlowSession(asks1: seq<Order>, bids1: seq<Order>, t1: int, asks2: seq<Order>, bids2: seq<Order>, t2: int)
    returns (first: FlowReply, second: FlowReply)
    requires t1 != 0
    ensures first == FirstSnapshot
    ensures second.Compared?
    ensures second.oldAsks == SumQty(asks1) && second.oldBids == SumQty(bids1)
    ensures second.asksDiff == SumQty(asks2) - SumQty(asks1) && second.bidsDiff == SumQty(bids2) - SumQty(bids1)
    ensures second.minutes * 60.0 == (t2 - t1) as real
  {
    var monitor := new FlowMonitor();
    first := monitor.Flow(asks1, bids1, t1);
    second := monitor.Flow(asks2, bids2, t2);
  }
}

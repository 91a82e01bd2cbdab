/**
 Edge arithmetic (LIGHTER_ASTER_BOT/src/edge.rs): the net edge of a maker price against its hedge, and the
 solver that finds the most aggressive price still clearing the required edge.
 */
module Edge {
  import opened Common
  import opened Reals

  datatype EdgeConfig = EdgeConfig(
    minNetProfit: real, slippageBuffer: real, latencyBuffer: real, basisBuffer: real, fundingBuffer: real,
    makerFee: real, takerFee: real)

  function BpsToRate(bps: real): real { bps / 10000.0 }

  function RateToBps(rate: real): real { rate * 10000.0 }

  function RequiredBps(c: EdgeConfig): real {
    c.minNetProfit + (c.slippageBuffer + c.latencyBuffer + c.basisBuffer + c.fundingBuffer)
  }

  function RequiredRate(c: EdgeConfig): real { BpsToRate(RequiredBps(c)) }

  /** The most a bid may pay; none if no positive price clears. */
  function MaxBid(vwap: real, refPx: real, c: EdgeConfig): Option<real> {
    var numerator := Times(vwap, 1.0 - BpsToRate(c.takerFee)) - Times(RequiredRate(c), refPx);
    var denominator := 1.0 + BpsToRate(c.makerFee);
    if denominator <= 0.0 || numerator <= 0.0 then None else Some(Over(numerator, denominator))
  }

  /** The least an ask may take. */
  function MinAsk(vwap: real, refPx: real, c: EdgeConfig): Option<real> {
    var numerator := Times(vwap, 1.0 + BpsToRate(c.takerFee)) + Times(RequiredRate(c), refPx);
    var denominator := 1.0 - BpsToRate(c.makerFee);
    if denominator <= 0.0 || numerator <= 0.0 then None else Some(Over(numerator, denominator))
  }

  /** What one unit nets: sold on the hedge, bought as maker, or the other way round. */
  function NetUnit(side: Side, px: real, vwap: real, c: EdgeConfig): real {
    if side == Buy then Times(vwap, 1.0 - BpsToRate(c.takerFee)) - Times(px, 1.0 + BpsToRate(c.makerFee))
    else Times(px, 1.0 - BpsToRate(c.makerFee)) - Times(vwap, 1.0 + BpsToRate(c.takerFee))
  }

  /** The net edge in bps after fees and buffers. */
  function NetEdge(side: Side, px: real, vwap: real, refPx: real, c: EdgeConfig): real {
    if refPx <= 0.0 then 0.0
    else
      RateToBps(Over(NetUnit(side, px, vwap, c), refPx))
      - c.slippageBuffer - c.latencyBuffer - c.basisBuffer - c.fundingBuffer
  }

  // ---------------------------------------------------------------- the solver inverts the edge

  /** The edge clears its minimum exactly when a unit nets the required rate on the reference price. */
  lemma EdgeClears(side: Side, px: real, vwap: real, refPx: real, c: EdgeConfig)
    requires refPx > 0.0
    ensures NetEdge(side, px, vwap, refPx, c) >= c.minNetProfit
      <==> NetUnit(side, px, vwap, c) >= Times(RequiredRate(c), refPx)
  {
    hide Times, Over, NetUnit;
    OverBounds(NetUnit(side, px, vwap, c), refPx, RequiredRate(c));
  }

  /** A bid clears the edge exactly when no higher than the solver's; where there is none, no positive bid does. */
  lemma BidInverts(px: real, vwap: real, refPx: real, c: EdgeConfig)
    requires refPx > 0.0
    ensures var bid := MaxBid(vwap, refPx, c);
      && (bid.Some? ==> bid.value > 0.0 && (NetEdge(Buy, px, vwap, refPx, c) >= c.minNetProfit <==> px <= bid.value))
      && (bid.None? && px > 0.0 && 1.0 + BpsToRate(c.makerFee) > 0.0 ==>
         NetEdge(Buy, px, vwap, refPx, c) < c.minNetProfit)
  {
    hide Times, Over, NetEdge;
    EdgeClears(Buy, px, vwap, refPx, c);
    var numerator := Times(vwap, 1.0 - BpsToRate(c.takerFee)) - Times(RequiredRate(c), refPx);
    var denominator := 1.0 + BpsToRate(c.makerFee);
    if denominator > 0.0 {
      OverBounds(numerator, denominator, px);
      TimesOrders(px, 0.0, denominator);
      TimesSum(0.0, 0.0, denominator);
    }
  }

  /**
   An ask clears the edge exactly when it is no lower than the solver's; where there is none for a maker
   fee below one, every positive ask clears it and the solver refuses all the same.
   */
  lemma AskInverts(px: real, vwap: real, refPx: real, c: EdgeConfig)
    requires refPx > 0.0
    ensures var ask := MinAsk(vwap, refPx, c);
      && (ask.Some? ==> ask.value > 0.0 && (NetEdge(Sell, px, vwap, refPx, c) >= c.minNetProfit <==> px >= ask.value))
      && (ask.None? && px > 0.0 && 1.0 - BpsToRate(c.makerFee) > 0.0 ==>
         NetEdge(Sell, px, vwap, refPx, c) >= c.minNetProfit)
  {
    hide Times, Over, NetEdge;
    EdgeClears(Sell, px, vwap, refPx, c);
    var numerator := Times(vwap, 1.0 + BpsToRate(c.takerFee)) + Times(RequiredRate(c), refPx);
    var denominator := 1.0 - BpsToRate(c.makerFee);
    if denominator > 0.0 {
      OverBounds(numerator, denominator, px);
      TimesOrders(px, 0.0, denominator);
      TimesSum(0.0, 0.0, denominator);
    }
  }

  /** As a configuration is loaded: no minimum or buffer below zero, and a taker fee above minus one. */
  predicate Loaded(c: EdgeConfig) {
    && c.minNetProfit >= 0.0 && c.slippageBuffer >= 0.0 && c.latencyBuffer >= 0.0 && c.basisBuffer >= 0.0
    && c.fundingBuffer >= 0.0 && BpsToRate(c.takerFee) > -1.0
  }

  /** Such a configuration has an ask for every hedge price exactly when its maker fee is below one. */
  lemma AskFound(vwap: real, refPx: real, c: EdgeConfig)
    requires vwap > 0.0 && refPx > 0.0 && Loaded(c)
    ensures MinAsk(vwap, refPx, c).Some? <==> BpsToRate(c.makerFee) < 1.0
  {
    hide Times;
    TimesOrders(1.0 + BpsToRate(c.takerFee), 0.0, vwap);
    TimesOrders(0.0, RequiredRate(c), refPx);
    TimesSum(1.0 + BpsToRate(c.takerFee), 0.0, vwap);
    TimesSum(0.0, 0.0, refPx);
  }

  /** A better hedge price is a better edge. */
  lemma BetterHedge(side: Side, px: real, vwap: real, better: real, refPx: real, c: EdgeConfig)
    requires refPx > 0.0 && -10000.0 <= c.takerFee <= 10000.0
    requires if side == Buy then vwap <= better else better <= vwap
    ensures NetEdge(side, px, vwap, refPx, c) <= NetEdge(side, px, better, refPx, c)
  {
    hide Times, Over;
    if side == Buy {
      TimesOrders(vwap, better, 1.0 - BpsToRate(c.takerFee));
    } else {
      TimesOrders(better, vwap, 1.0 + BpsToRate(c.takerFee));
    }
    OverGrows(NetUnit(side, px, vwap, c), NetUnit(side, px, better, c), refPx);
  }
}

/**
 What the quote pipeline's answer means (LIGHTER_ASTER_BOT/src/quote_engine.rs), said of the books, the fees and
 the limits: when each rejection is given, and what a quote's hedge, edge, touch and distance are.
 */
module Answers {
  import opened Common
  import opened Reals
  import opened Decimals
  import opened Books
  import opened Vwap
  import opened Edge
  import opened Quoting

  // ---------------------------------------------------------------- the inputs

  ghost predicate BothSides(b: OrderBook) { b.bids != [] && b.asks != [] }

  /** Four times the reference price: the touches of both books. */
  function Touches(touch: OrderBook, hl: OrderBook): real
    requires BothSides(touch) && BothSides(hl)
  {
    touch.bids[0].px + touch.asks[0].px + hl.bids[0].px + hl.asks[0].px
  }

  /** Both books are there, the touch is not crossed, neither is older than allowed, and their mids are positive. */
  ghost predicate Usable(m: Market, touch: OrderBook, hl: OrderBook) {
    && BothSides(touch) && touch.bids[0].px < touch.asks[0].px && BothSides(hl)
    && touch.ageMs <= m.maxStalenessMs && hl.ageMs <= m.maxStalenessMs && Touches(touch, hl) > 0.0
  }

  /** The side of the hedge book a quote's hedge takes: bids for a bid's, asks for an ask's. */
  function HedgeLevels(hl: OrderBook, side: Side): seq<Level> { if side == Buy then hl.bids else hl.asks }

  /** The hedge's average is within so many bps of the hedge touch, on the side that costs. */
  ghost predicate SlipsWithin(levels: seq<Level>, side: Side, vwap: real, most: real)
    requires levels != []
  {
    if side == Sell then vwap <= Times(levels[0].px, 1.0 + most / 10000.0)
    else vwap >= Times(levels[0].px, 1.0 - most / 10000.0)
  }

  /** The average price of taking `target`, level by level. */
  ghost predicate AverageIs(levels: seq<Level>, target: real, vwap: real) {
    Times(vwap, target) == Paid(levels, |levels|, target)
  }

  /** The edge in bps of the reference: what a unit nets after both fees, less the buffers. */
  ghost predicate EdgeIs(e: EdgeConfig, side: Side, px: real, vwap: real, refPx: real, bps: real) {
    var maker, taker := e.makerFee / 10000.0, e.takerFee / 10000.0;
    var unit := if side == Buy then Times(vwap, 1.0 - taker) - Times(px, 1.0 + maker)
                else Times(px, 1.0 - maker) - Times(vwap, 1.0 + taker);
    Times(bps + e.slippageBuffer + e.latencyBuffer + e.basisBuffer + e.fundingBuffer, refPx) == 10000.0 * unit
  }

  /** The i-th level is the first by which `target` is covered. */
  ghost predicate Covers(levels: seq<Level>, target: real, i: int) {
    0 <= i < |levels| && QtyBefore(levels, i + 1) >= target && forall j :: 1 <= j <= i ==> QtyBefore(levels, j) < target
  }

  /** The best offer itself holds the target. */
  ghost predicate Thick(touch: OrderBook, touchIsBbo: bool, side: Side, target: real) {
    touchIsBbo && HedgeLevels(touch, side) != [] && HedgeLevels(touch, side)[0].qty >= target
  }

  ghost predicate DepthUsable(depth: OrderBook, maxStalenessMs: int) {
    BothSides(depth) && depth.ageMs <= maxStalenessMs && depth.bids[0].px < depth.asks[0].px
  }

  /** The touch a distance is measured from: the best offer if thick enough, else the depth's first covering level. */
  ghost predicate TouchIs(depth: OrderBook, touch: OrderBook, touchIsBbo: bool, side: Side, target: real,
          maxStalenessMs: int, px: real)
  {
    if Thick(touch, touchIsBbo, side, target) then px == HedgeLevels(touch, side)[0].px
    else
      && DepthUsable(depth, maxStalenessMs)
      && exists i :: Covers(HedgeLevels(depth, side), target, i) && HedgeLevels(depth, side)[i].px == px
  }

  /** How far the price lies behind the touch; not at all when before it. */
  function Behind(side: Side, touchPx: real, px: real): real {
    RMax(if side == Buy then touchPx - px else px - touchPx, 0.0)
  }

  // ---------------------------------------------------------------- the model's own measures

  lemma RefIs(touch: OrderBook, hl: OrderBook)
    requires BothSides(touch) && BothSides(hl)
    ensures RefOf(touch, hl) * 4.0 == Touches(touch, hl)
  {
  }

  lemma EdgeHere(e: EdgeConfig, side: Side, px: real, vwap: real, refPx: real)
    requires refPx > 0.0
    ensures EdgeIs(e, side, px, vwap, refPx, NetEdge(side, px, vwap, refPx, e))
  {
    hide Times, Over;
    var unit := NetUnit(side, px, vwap, e);
    OverTimes(unit, refPx);
    assert NetEdge(side, px, vwap, refPx, e) + e.slippageBuffer + e.latencyBuffer + e.basisBuffer + e.fundingBuffer
        == Over(unit, refPx) * 10000.0;
  }

  lemma OverTimes(x: real, y: real)
    requires y > 0.0
    ensures Times(Over(x, y) * 10000.0, y) == 10000.0 * x
  {
    assert Over(x, y) * y == x;
  }

  lemma {:induction false} ReachFrom(levels: seq<Level>, k: nat, target: real)
    requires k <= |levels| && forall j :: 1 <= j <= k ==> QtyBefore(levels, j) < target
    ensures var r := Reach(levels[k..], target, QtyBefore(levels, k));
      && (r.None? <==> forall i :: !Covers(levels, target, i))
      && (r.Some? ==> exists i :: Covers(levels, target, i) && levels[i].px == r.value)
    decreases |levels| - k
  {
    if k < |levels| {
      assert levels[k..][0] == levels[k] && levels[k..][1..] == levels[k + 1..];
      if QtyBefore(levels, k + 1) >= target {
        assert Covers(levels, target, k);
      } else {
        ReachFrom(levels, k + 1, target);
      }
    }
  }

  lemma CoversOnce(levels: seq<Level>, target: real, i: int, j: int)
    requires Covers(levels, target, i) && Covers(levels, target, j)
    ensures i == j
  {
  }

  lemma TouchHere(depth: OrderBook, touch: OrderBook, touchIsBbo: bool, side: Side, target: real, maxStalenessMs: int)
    ensures var t := EffectiveTouch(depth, touch, touchIsBbo, side, target, maxStalenessMs);
      forall px :: TouchIs(depth, touch, touchIsBbo, side, target, maxStalenessMs, px) <==> t == Some(px)
  {
    hide Reach;
    var levels := HedgeLevels(depth, side);
    assert levels[0..] == levels;
    ReachFrom(levels, 0, target);
    forall i, j | Covers(levels, target, i) && Covers(levels, target, j) ensures i == j {
      CoversOnce(levels, target, i, j);
    }
    var r := Reach(levels, target, 0.0);
    if r.Some? { var i :| Covers(levels, target, i) && levels[i].px == r.value; }
  }

  lemma DistanceIs(side: Side, touchPx: real, px: real, refPx: real, bps: real)
    requires refPx > 0.0
    ensures Distance(side, touchPx, px, refPx) <= bps <==> Behind(side, touchPx, px) * 10000.0 <= Times(bps, refPx)
    ensures bps <= Distance(side, touchPx, px, refPx) <==> Times(bps, refPx) <= Behind(side, touchPx, px) * 10000.0
  {
    hide Times, Over;
    var away := Behind(side, touchPx, px);
    OverTimes(away, refPx);
    TimesOrders(Over(away, refPx) * 10000.0, bps, refPx);
    TimesOrders(bps, Over(away, refPx) * 10000.0, refPx);
  }

  lemma AverageHere(levels: seq<Level>, target: real)
    requires Solid(levels) && levels != [] && target > 0.0
    ensures FullVwap(levels, target).Some? <==> Depth(levels) >= target
    ensures FullVwap(levels, target).Some? ==> AverageIs(levels, target, FullVwap(levels, target).value)
  {
    hide Times, Notional, Taken, Average;
    TakenIsLess(levels, target);
    WalkIs(levels, target);
    if FullVwap(levels, target).Some? {
      var v := FullVwap(levels, target).value;
      AverageTimes(Notional(levels, target), target);
    }
  }

  lemma AverageTimes(notional: real, filled: real)
    requires filled > 0.0
    ensures Times(Average(notional, filled), filled) == notional
  {
  }

  // ---------------------------------------------------------------- quotes

  /** What a quote says of the market it was made in. */
  ghost predicate Says(e: EdgeConfig, c: QuoteConfig, m: Market, side: Side, depth: OrderBook, touch: OrderBook,
          touchIsBbo: bool, hl: OrderBook, q: Quote)
    requires Usable(m, touch, hl)
  {
    && q.refPx * 4.0 == Touches(touch, hl) && q.depthTarget == Times(q.qty, RMax(c.depthMultiple, 1.0))
    && AverageIs(HedgeLevels(hl, side), q.depthTarget, q.vwap) && Depth(HedgeLevels(hl, side)) >= q.depthTarget
    && SlipsWithin(HedgeLevels(hl, side), side, q.vwap, c.maxSlippageBps)
    && EdgeIs(e, side, q.price, q.vwap, q.refPx, q.edgeBps)
    && TouchIs(depth, touch, touchIsBbo, side, q.depthTarget, m.maxStalenessMs, q.touchPx)
    && Times(c.minTouchDistanceBps, q.refPx) <= Behind(side, q.touchPx, q.price) * 10000.0
    && Behind(side, q.touchPx, q.price) * 10000.0 <= Times(c.maxDistanceBps, q.refPx)
  }

  /** Every quote given was made on usable books and says of them what it should. */
  lemma QuoteSays(e: EdgeConfig, c: QuoteConfig, m: Market, legs: Legs, side: Side, depth: OrderBook, touch: OrderBook,
          touchIsBbo: bool, hl: OrderBook)
    requires Solid(hl.bids) && Solid(hl.asks)
    ensures var r := DesiredQuote(e, c, m, legs, side, depth, touch, touchIsBbo, hl);
      r.Quoted? ==> Usable(m, touch, hl) && Says(e, c, m, side, depth, touch, touchIsBbo, hl, r.q)
  {
    hide SizeOf, PriceOf, NetEdge, Distance, Times, EffectiveTouch, FullVwap, Slippage, RefOf, EdgeIs, TouchIs,
      AverageIs;
    var r := DesiredQuote(e, c, m, legs, side, depth, touch, touchIsBbo, hl);
    if r.Quoted? {
      RefIs(touch, hl);
      var q, levels := r.q, HedgeLevels(hl, side);
      Asked(levels, q.depthTarget);
      AverageHere(levels, q.depthTarget);
      SlippageWithin(side == Sell, q.vwap, levels[0].px, c.maxSlippageBps);
      EdgeHere(e, side, q.price, q.vwap, q.refPx);
      TouchHere(depth, touch, touchIsBbo, side, q.depthTarget, m.maxStalenessMs);
      DistanceIs(side, q.touchPx, q.price, q.refPx, c.maxDistanceBps);
      DistanceIs(side, q.touchPx, q.price, q.refPx, c.minTouchDistanceBps);
    }
  }

  lemma Asked(levels: seq<Level>, target: real)
    requires FullVwap(levels, target).Some?
    ensures target > 0.0
  {
  }

  // ---------------------------------------------------------------- rejections

  /** The hedge of a size could be had: the side is deep enough. */
  ghost predicate Hedgeable(c: QuoteConfig, hl: OrderBook, side: Side, qty: real) {
    Depth(HedgeLevels(hl, side)) >= Times(qty, RMax(c.depthMultiple, 1.0))
  }

  /** Its hedge slips too far: the average of the multiple of it is outside the bound. */
  ghost predicate Slips(c: QuoteConfig, hl: OrderBook, side: Side, qty: real)
    requires HedgeLevels(hl, side) != []
  {
    forall vwap :: AverageIs(HedgeLevels(hl, side), Times(qty, RMax(c.depthMultiple, 1.0)), vwap) ==>
      !SlipsWithin(HedgeLevels(hl, side), side, vwap, c.maxSlippageBps)
  }

  /** Fresh books whose mids are not positive. */
  ghost predicate NoMid(m: Market, touch: OrderBook, hl: OrderBook)
    requires BothSides(touch) && BothSides(hl)
  {
    touch.ageMs <= m.maxStalenessMs && hl.ageMs <= m.maxStalenessMs && Touches(touch, hl) <= 0.0
  }

  /** The reasons given before any sizing: exactly the defect of the books that comes first. */
  lemma BookReasons(e: EdgeConfig, c: QuoteConfig, m: Market, legs: Legs, side: Side, depth: OrderBook,
          touch: OrderBook, touchIsBbo: bool, hl: OrderBook)
    ensures var r := DesiredQuote(e, c, m, legs, side, depth, touch, touchIsBbo, hl);
      && (r == Rejected(MissingAsterBook) <==> !BothSides(touch))
      && (r == Rejected(BookCrossed) <==> BothSides(touch) && touch.bids[0].px >= touch.asks[0].px)
      && (BothSides(touch) && touch.bids[0].px < touch.asks[0].px ==>
            && (r == Rejected(MissingMid) <==> !BothSides(hl) || NoMid(m, touch, hl))
            && (r == Rejected(AsterBookStale) <==> BothSides(hl) && touch.ageMs > m.maxStalenessMs)
            && (r == Rejected(HlBookStale) <==> BothSides(hl) && touch.ageMs <= m.maxStalenessMs < hl.ageMs))
  {
    hide SizeOf, PricedSize, RefOf;
    if BothSides(touch) && BothSides(hl) {
      RefIs(touch, hl);
      var refPx := RefOf(touch, hl);
      if refPx > 0.0 {
        SizeReasons(c, m, legs, side, refPx);
        var size := SizeOf(c, m, legs, side, refPx);
        if size.Size? { LateReasons(e, c, m, legs, side, depth, touch, touchIsBbo, hl, refPx, size); }
      }
    }
  }

  ghost predicate OfBooks(reason: Reason) {
    reason in {MissingAsterBook, BookCrossed, MissingMid, AsterBookStale, HlBookStale}
  }

  ghost predicate OfHedge(reason: Reason) { reason == HedgeVwapUnavailable || reason == HedgeSlippageTooHigh }

  ghost predicate OfSize(reason: Reason) {
    reason in {AsterCapReached, LighterCapReached, PositionReduceOnly, MinLotExceedsHeadroom, QuantityBelowMinimum}
  }

  lemma SizeReasons(c: QuoteConfig, m: Market, legs: Legs, side: Side, refPx: real)
    requires refPx != 0.0
    ensures var s := SizeOf(c, m, legs, side, refPx);
      (s.NoSize? ==> OfSize(s.reason)) && (s.Size? && s.binding.Some? ==> OfSize(s.binding.value))
  {
    hide FloorToStep, MinSize, AsterHeadroom, HlHeadroom;
  }

  lemma LateReasons(e: EdgeConfig, c: QuoteConfig, m: Market, legs: Legs, side: Side, depth: OrderBook,
          touch: OrderBook, touchIsBbo: bool, hl: OrderBook, refPx: real, size: Size)
    requires refPx != 0.0 && size.Size? && BothSides(touch) && (size.binding.Some? ==> OfSize(size.binding.value))
    ensures var r := PricedSize(e, c, m, legs, side, depth, touch, touchIsBbo, hl, refPx, size);
      r.Rejected? ==> !OfBooks(r.reason)
  {
    hide FullVwap, Slippage, Times, EffectiveTouch, NetEdge, Distance;
    var target := Times(size.qty, RMax(c.depthMultiple, 1.0));
    var vwap := FullVwap(MySide(hl, side), target);
    if vwap.Some? { PriceReasons(side, touch.bids[0].px, touch.asks[0].px, vwap.value, refPx, m.tick, e); }
  }

  lemma PriceReasons(side: Side, bid: real, ask: real, vwap: real, refPx: real, tick: real, e: EdgeConfig)
    ensures var p := PriceOf(side, bid, ask, vwap, refPx, tick, e);
      p.NoPrice? ==> p.reason in {NoProfitableBid, NoProfitableAsk, PostOnlyPriceInvalid}
  {
  }

  /** A size found is rejected for its hedge exactly when the side is too thin for it, or slips too far. */
  lemma HedgeReasons(e: EdgeConfig, c: QuoteConfig, m: Market, legs: Legs, side: Side, depth: OrderBook,
          touch: OrderBook, touchIsBbo: bool, hl: OrderBook)
    requires Usable(m, touch, hl) && Solid(hl.bids) && Solid(hl.asks)
    requires SizeOf(c, m, legs, side, RefOf(touch, hl)).Size?
    ensures var r := DesiredQuote(e, c, m, legs, side, depth, touch, touchIsBbo, hl);
      var qty := SizeOf(c, m, legs, side, RefOf(touch, hl)).qty;
      && (r == Rejected(HedgeVwapUnavailable) <==> !Hedgeable(c, hl, side, qty))
      && (r == Rejected(HedgeSlippageTooHigh) <==> Hedgeable(c, hl, side, qty) && Slips(c, hl, side, qty))
  {
    hide SizeOf, PriceOf, Times, EffectiveTouch, FullVwap, Slippage, RefOf, AverageIs, Gated;
    RefIs(touch, hl);
    var refPx := RefOf(touch, hl);
    var size := SizeOf(c, m, legs, side, refPx);
    SizePositive(c, m, legs, side, refPx);
    SizeReasons(c, m, legs, side, refPx);
    var target, levels := Times(size.qty, RMax(c.depthMultiple, 1.0)), HedgeLevels(hl, side);
    AtLeastItself(size.qty, RMax(c.depthMultiple, 1.0));
    AverageHere(levels, target);
    var vwap := FullVwap(levels, target);
    if vwap.Some? {
      AverageOnce(levels, target, vwap.value);
      SlippageWithin(side == Sell, vwap.value, levels[0].px, c.maxSlippageBps);
      PriceReasons(side, touch.bids[0].px, touch.asks[0].px, vwap.value, refPx, m.tick, e);
      var p := PriceOf(side, touch.bids[0].px, touch.asks[0].px, vwap.value, refPx, m.tick, e);
      if p.Price? {
        var t := EffectiveTouch(depth, touch, touchIsBbo, side, target, m.maxStalenessMs);
        GateReasons(e, c, m, legs, side, size, p.px, vwap.value, refPx, target, t);
      }
    }
  }

  lemma SizePositive(c: QuoteConfig, m: Market, legs: Legs, side: Side, refPx: real)
    requires refPx != 0.0 && SizeOf(c, m, legs, side, refPx).Size?
    ensures SizeOf(c, m, legs, side, refPx).qty > 0.0
  {
    hide FloorToStep, MinSize, AsterHeadroom, HlHeadroom;
  }

  lemma AverageOnce(levels: seq<Level>, target: real, vwap: real)
    requires target > 0.0 && AverageIs(levels, target, vwap)
    ensures forall v :: AverageIs(levels, target, v) ==> v == vwap
  {
    hide Times, Paid;
    forall v | AverageIs(levels, target, v) ensures v == vwap {
      TimesOrders(v, vwap, target);
      TimesOrders(vwap, v, target);
    }
  }

  lemma GateReasons(e: EdgeConfig, c: QuoteConfig, m: Market, legs: Legs, side: Side, size: Size, px: real, vwap: real,
          refPx: real, target: real, touchPx: Option<real>)
    requires refPx != 0.0 && size.Size? && (size.binding.Some? ==> OfSize(size.binding.value))
    ensures var r := Gated(e, c, m, legs, side, size, px, vwap, refPx, target, touchPx);
      r.Rejected? ==> !OfHedge(r.reason)
  {
    hide NetEdge, Times, Distance;
  }
}

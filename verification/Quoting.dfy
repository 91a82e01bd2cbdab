/**
 The maker quote (LIGHTER_ASTER_BOT/src/quote_engine.rs): sized under every cap, priced backward from the
 hedge, rounded to the tick, and rejected with a reason when no sound quote exists.
 */
module Quoting {
  import opened Common
  import opened Reals
  import opened Decimals
  import opened Books
  import opened Vwap
  import opened Edge

  /** A book and its age at the decision. */
  datatype OrderBook = OrderBook(bids: seq<Level>, asks: seq<Level>, ageMs: int)

  datatype Reason =
    | MissingAsterBook | BookCrossed | MissingMid | AsterBookStale | HlBookStale | AsterCapReached | LighterCapReached
    | PositionReduceOnly | MinLotExceedsHeadroom | QuantityBelowMinimum | HedgeVwapUnavailable | HedgeSlippageTooHigh
    | NoProfitableBid | NoProfitableAsk | PostOnlyPriceInvalid | EdgeBelowMinAfterRounding | EffectiveTouchUnavailable
    | QuoteTooFar | QuoteTooClose

  datatype QuoteConfig = QuoteConfig(
    desiredNotional: real, maxDistanceBps: real, minTouchDistanceBps: real, depthMultiple: real, maxSlippageBps: real,
    clampToMinLot: bool)

  datatype Market = Market(
    tick: real, step: real, minQty: real, minNotional: real, hlMinNotional: real, maxStalenessMs: int)

  datatype Legs = Legs(
    aster: real, hl: real, asterCap: real, hlCap: real, enforce: bool, reduceOnly: bool)

  datatype Quote = Quote(
    price: real, qty: real, vwap: real, edgeBps: real, refPx: real, depthTarget: real, touchPx: real)

  datatype Result = Quoted(q: Quote) | Rejected(reason: Reason)

  // ---------------------------------------------------------------- sizing

  datatype Reduction = Free | Upto(qty: real) | Refused

  /** The most that still shrinks both legs. */
  function MaxReduce(legs: Legs, side: Side): Reduction {
    if legs.aster == 0.0 && legs.hl == 0.0 then Free
    else if side == Buy && legs.aster < 0.0 && legs.hl > 0.0 then Upto(RMin(-legs.aster, legs.hl))
    else if side == Sell && legs.aster > 0.0 && legs.hl < 0.0 then Upto(RMin(legs.aster, -legs.hl))
    else Refused
  }

  /** How far each leg may still go toward its cap, in quantity. */
  function AsterHeadroom(legs: Legs, side: Side, refPx: real): real
    requires refPx != 0.0
  {
    var cap := Over(legs.asterCap, refPx);
    RMax(if side == Buy then cap - legs.aster else cap + legs.aster, 0.0)
  }

  function HlHeadroom(legs: Legs, side: Side, refPx: real): real
    requires refPx != 0.0
  {
    var cap := Over(legs.hlCap, refPx);
    RMax(if side == Buy then cap + legs.hl else cap - legs.hl, 0.0)
  }

  /** The smallest order both venues accept. */
  function MinSize(m: Market, refPx: real): real
    requires refPx != 0.0
  {
    RMax(RMax(m.minQty, CeilToStep(Over(m.minNotional, refPx), m.step)),
         CeilToStep(Over(m.hlMinNotional, refPx), m.step))
  }

  datatype Size = Size(qty: real, binding: Option<Reason>) | NoSize(reason: Reason)

  function OrElse(binding: Option<Reason>, reason: Reason): Reason { if binding.Some? then binding.value else reason }

  /** The cap on a quantity from both legs' headroom, and the leg that sets it. */
  function CapOf(m: Market, legs: Legs, side: Side, refPx: real): (real, Reason)
    requires refPx != 0.0
  {
    var a, h := AsterHeadroom(legs, side, refPx), HlHeadroom(legs, side, refPx);
    (FloorToStep(if a <= h then a else h, m.step), if a <= h then AsterCapReached else LighterCapReached)
  }

  /** After the caps: clamped up to the minimum where that fits, or rejected. */
  function Clamped(c: QuoteConfig, m: Market, qty: real, least: real, headroom: Option<real>, reduce: Option<real>,
          binding: Option<Reason>)
    : Size
  {
    if reduce.Some? && least > reduce.value then NoSize(PositionReduceOnly)
    else if c.clampToMinLot && qty < least && headroom.Some? && least > headroom.value then
      NoSize(OrElse(binding, MinLotExceedsHeadroom))
    else
      var size := if c.clampToMinLot && qty < least then least else qty;
      if size <= 0.0 || size < least then
        NoSize(if reduce.Some? && reduce.value < m.minQty then PositionReduceOnly
               else OrElse(binding, QuantityBelowMinimum))
      else Size(size, binding)
  }

  function SizeOf(c: QuoteConfig, m: Market, legs: Legs, side: Side, refPx: real): Size
    requires refPx != 0.0
  {
    var desired := FloorToStep(Over(c.desiredNotional, refPx), m.step);
    var least := MinSize(m, refPx);
    var cap := CapOf(m, legs, side, refPx);
    var headroom := if legs.enforce then Some(cap.0) else None;
    var binds := legs.enforce && cap.0 < desired;
    var qty := if binds then cap.0 else desired;
    var binding := if binds then Some(cap.1) else None;
    if !legs.reduceOnly then Clamped(c, m, qty, least, headroom, None, binding)
    else
      match MaxReduce(legs, side)
      case Refused => NoSize(PositionReduceOnly)
      case Free => Clamped(c, m, qty, least, headroom, None, binding)
      case Upto(most) =>
        var reduce := FloorToStep(most, m.step);
        if reduce <= 0.0 then NoSize(PositionReduceOnly)
        else Clamped(c, m, RMin(qty, reduce), least, headroom, Some(reduce), binding)
  }

  // ---------------------------------------------------------------- pricing

  /** The average of taking all of `qty`, or nothing when the side cannot fill it. */
  function FullVwap(levels: seq<Level>, qty: real): Option<real> {
    if qty <= 0.0 || levels == [] || levels[0].px <= 0.0 || Taken(levels, qty) < qty then None
    else Some(VwapOf(levels, qty))
  }

  datatype Price = Price(px: real) | NoPrice(reason: Reason)

  /** Post-only behind the opposite touch, no worse than the solver's bound, on a tick. */
  function PriceOf(side: Side, bid: real, ask: real, vwap: real, refPx: real, tick: real, e: EdgeConfig): Price {
    match side
    case Buy =>
      var bound := MaxBid(vwap, refPx, e);
      if bound.None? then NoPrice(NoProfitableBid)
      else
        var px := FloorToStep(RMin(ask - tick, bound.value), tick);
        if px >= ask then NoPrice(PostOnlyPriceInvalid) else if px <= 0.0 then NoPrice(NoProfitableBid) else Price(px)
    case Sell =>
      var bound := MinAsk(vwap, refPx, e);
      if bound.None? then NoPrice(NoProfitableAsk)
      else
        var px := CeilToStep(RMax(bid + tick, bound.value), tick);
        if px <= bid then NoPrice(PostOnlyPriceInvalid) else Price(px)
  }

  /** The first level by which `target` is covered, `cum` before these levels. */
  function Reach(levels: seq<Level>, target: real, cum: real): Option<real>
    decreases |levels|
  {
    if levels == [] then None
    else if cum + levels[0].qty >= target then Some(levels[0].px)
    else Reach(levels[1..], target, cum + levels[0].qty)
  }

  predicate Crossed(b: OrderBook) { b.bids != [] && b.asks != [] && b.bids[0].px >= b.asks[0].px }

  function MySide(b: OrderBook, side: Side): seq<Level> { if side == Buy then b.bids else b.asks }

  /** The same-side touch thick enough for the order. */
  function EffectiveTouch(depth: OrderBook, touch: OrderBook, touchIsBbo: bool, side: Side, target: real,
          maxStalenessMs: int)
    : Option<real>
  {
    var raw := MySide(touch, side);
    if raw != [] && touchIsBbo && raw[0].qty >= target then Some(raw[0].px)
    else if depth.ageMs > maxStalenessMs || Crossed(depth) || depth.bids == [] || depth.asks == [] then None
    else Reach(MySide(depth, side), target, 0.0)
  }

  function Distance(side: Side, touch: real, px: real, refPx: real): real
    requires refPx != 0.0
  {
    Over(RMax(if side == Buy then touch - px else px - touch, 0.0), refPx) * 10000.0
  }

  function MidOf(b: OrderBook): real
    requires b.bids != [] && b.asks != []
  {
    (b.bids[0].px + b.asks[0].px) / 2.0
  }

  function RefOf(touch: OrderBook, hl: OrderBook): real
    requires touch.bids != [] && touch.asks != [] && hl.bids != [] && hl.asks != []
  {
    (MidOf(touch) + MidOf(hl)) / 2.0
  }

  /** What is gated after a price: its edge, its notional and its distance from the touch. */
  function Gated(e: EdgeConfig, c: QuoteConfig, m: Market, legs: Legs, side: Side, size: Size, px: real, vwap: real,
          refPx: real, target: real, touchPx: Option<real>)
    : Result
    requires refPx != 0.0 && size.Size?
  {
    if NetEdge(side, px, vwap, refPx, e) < e.minNetProfit then Rejected(EdgeBelowMinAfterRounding)
    else if Times(size.qty, px) < m.minNotional then
      Rejected(if legs.reduceOnly then PositionReduceOnly else OrElse(size.binding, QuantityBelowMinimum))
    else if touchPx.None? then Rejected(EffectiveTouchUnavailable)
    else if Distance(side, touchPx.value, px, refPx) > c.maxDistanceBps then Rejected(QuoteTooFar)
    else if Distance(side, touchPx.value, px, refPx) < c.minTouchDistanceBps then Rejected(QuoteTooClose)
    else Quoted(Quote(px, size.qty, vwap, NetEdge(side, px, vwap, refPx, e), refPx, target, touchPx.value))
  }

  /** The hedge and the price of a size. */
  function PricedSize(e: EdgeConfig, c: QuoteConfig, m: Market, legs: Legs, side: Side, depth: OrderBook,
          touch: OrderBook, touchIsBbo: bool, hl: OrderBook, refPx: real, size: Size)
    : Result
    requires refPx != 0.0 && size.Size? && touch.bids != [] && touch.asks != []
  {
    var target := Times(size.qty, RMax(c.depthMultiple, 1.0));
    var levels := MySide(hl, side);
    var vwap := FullVwap(levels, target);
    if vwap.None? then Rejected(HedgeVwapUnavailable)
    else if Slippage(side == Sell, vwap.value, levels[0].px) > c.maxSlippageBps then Rejected(HedgeSlippageTooHigh)
    else
      match PriceOf(side, touch.bids[0].px, touch.asks[0].px, vwap.value, refPx, m.tick, e)
      case NoPrice(reason) => Rejected(reason)
      case Price(px) =>
        Gated(e, c, m, legs, side, size, px, vwap.value, refPx, target,
              EffectiveTouch(depth, touch, touchIsBbo, side, target, m.maxStalenessMs))
  }

  /** The desired quote, or the reason there is none. */
  function DesiredQuote(e: EdgeConfig, c: QuoteConfig, m: Market, legs: Legs, side: Side, depth: OrderBook,
          touch: OrderBook, touchIsBbo: bool, hl: OrderBook)
    : Result
  {
    if touch.bids == [] || touch.asks == [] then Rejected(MissingAsterBook)
    else if Crossed(touch) then Rejected(BookCrossed)
    else if hl.bids == [] || hl.asks == [] then Rejected(MissingMid)
    else if touch.ageMs > m.maxStalenessMs then Rejected(AsterBookStale)
    else if hl.ageMs > m.maxStalenessMs then Rejected(HlBookStale)
    else if RefOf(touch, hl) <= 0.0 then Rejected(MissingMid)
    else
      match SizeOf(c, m, legs, side, RefOf(touch, hl))
      case NoSize(reason) => Rejected(reason)
      case Size(qty, binding) =>
        PricedSize(e, c, m, legs, side, depth, touch, touchIsBbo, hl, RefOf(touch, hl), Size(qty, binding))
  }

  // ---------------------------------------------------------------- a quote is sound

  /** Both legs, once the order fills and is hedged. */
  function AsterAfter(legs: Legs, side: Side, qty: real): real {
    if side == Buy then legs.aster + qty else legs.aster - qty
  }

  function HlAfter(legs: Legs, side: Side, qty: real): real { if side == Buy then legs.hl - qty else legs.hl + qty }

  /** No leg goes past its cap, at the reference price, on the side the order moves it to. */
  predicate WithinCaps(legs: Legs, side: Side, qty: real, refPx: real) {
    if side == Buy then
      && Times(AsterAfter(legs, side, qty), refPx) <= legs.asterCap
      && Times(-HlAfter(legs, side, qty), refPx) <= legs.hlCap
    else
      && Times(-AsterAfter(legs, side, qty), refPx) <= legs.asterCap
      && Times(HlAfter(legs, side, qty), refPx) <= legs.hlCap
  }

  /** Both legs come nearer to flat, and neither crosses it. */
  predicate Shrinks(legs: Legs, side: Side, qty: real) {
    if side == Buy then legs.aster < AsterAfter(legs, side, qty) <= 0.0 && 0.0 <= HlAfter(legs, side, qty) < legs.hl
    else 0.0 <= AsterAfter(legs, side, qty) < legs.aster && legs.hl < HlAfter(legs, side, qty) <= 0.0
  }

  lemma CeilCovers(x: real, refPx: real, step: real, q: real)
    requires step > 0.0 && refPx > 0.0 && q >= CeilToStep(Over(x, refPx), step)
    ensures Times(q, refPx) >= x
  {
    CeilIsSmallest(Over(x, refPx), step);
    OverBounds(x, refPx, q);
  }

  /** The minimum size is on a step and worth both venues' minimums. */
  lemma MinSizeClears(m: Market, refPx: real, q: real)
    requires m.step > 0.0 && refPx > 0.0 && q >= MinSize(m, refPx)
    ensures q >= m.minQty && Times(q, refPx) >= m.minNotional && Times(q, refPx) >= m.hlMinNotional
    ensures OnStep(m.minQty, m.step) ==> OnStep(MinSize(m, refPx), m.step)
  {
    hide Times, Over, CeilToStep, OnStep;
    CeilCovers(m.minNotional, refPx, m.step, q);
    CeilCovers(m.hlMinNotional, refPx, m.step, q);
    CeilIsSmallest(Over(m.minNotional, refPx), m.step);
    CeilIsSmallest(Over(m.hlMinNotional, refPx), m.step);
  }

  /** What the clamps leave: at least the minimum, no more than any cap, on a step where all of them are. */
  lemma ClampedFits(c: QuoteConfig, m: Market, qty: real, least: real, headroom: Option<real>, reduce: Option<real>,
          binding: Option<Reason>)
    requires Clamped(c, m, qty, least, headroom, reduce, binding).Size?
    requires (headroom.Some? ==> qty <= headroom.value) && (reduce.Some? ==> qty <= reduce.value)
    ensures var s := Clamped(c, m, qty, least, headroom, reduce, binding).qty;
      && s > 0.0 && s >= least && (s == qty || s == least)
      && (headroom.Some? ==> s <= headroom.value) && (reduce.Some? ==> s <= reduce.value)
  {
  }

  /** Headroom is what the caps leave. */
  lemma HeadroomFits(legs: Legs, side: Side, refPx: real, qty: real)
    requires refPx > 0.0 && qty > 0.0 && qty <= AsterHeadroom(legs, side, refPx) && qty <= HlHeadroom(legs, side, refPx)
    ensures WithinCaps(legs, side, qty, refPx)
  {
    hide Times, Over;
    if side == Buy {
      OverBounds(legs.asterCap, refPx, AsterAfter(legs, side, qty));
      OverBounds(legs.hlCap, refPx, -HlAfter(legs, side, qty));
    } else {
      OverBounds(legs.asterCap, refPx, -AsterAfter(legs, side, qty));
      OverBounds(legs.hlCap, refPx, HlAfter(legs, side, qty));
    }
  }

  lemma MinOnStep(x: real, y: real, step: real)
    requires OnStep(x, step) && OnStep(y, step)
    ensures OnStep(RMin(x, y), step)
  {
  }

  /** Every size found: sound under every cap at once. */
  lemma SizeSound(c: QuoteConfig, m: Market, legs: Legs, side: Side, refPx: real)
    requires m.step > 0.0 && refPx > 0.0 && OnStep(m.minQty, m.step) && SizeOf(c, m, legs, side, refPx).Size?
    ensures var q := SizeOf(c, m, legs, side, refPx).qty;
      && q > 0.0 && OnStep(q, m.step)
      && q >= m.minQty && Times(q, refPx) >= m.minNotional && Times(q, refPx) >= m.hlMinNotional
      && (legs.enforce ==> WithinCaps(legs, side, q, refPx))
      && (legs.reduceOnly && (legs.aster != 0.0 || legs.hl != 0.0) ==> Shrinks(legs, side, q))
  {
    hide Times, Over, FloorToStep, MinSize, OnStep, AsterHeadroom, HlHeadroom, WithinCaps;
    var desired := FloorToStep(Over(c.desiredNotional, refPx), m.step);
    var least := MinSize(m, refPx);
    var cap := CapOf(m, legs, side, refPx);
    var a, h := AsterHeadroom(legs, side, refPx), HlHeadroom(legs, side, refPx);
    FloorIsLargest(Over(c.desiredNotional, refPx), m.step);
    FloorIsLargest(if a <= h then a else h, m.step);
    var headroom := if legs.enforce then Some(cap.0) else None;
    var binds := legs.enforce && cap.0 < desired;
    var qty := if binds then cap.0 else desired;
    var binding := if binds then Some(cap.1) else None;
    var q := SizeOf(c, m, legs, side, refPx).qty;
    if legs.reduceOnly && MaxReduce(legs, side).Upto? {
      var reduce := FloorToStep(MaxReduce(legs, side).qty, m.step);
      FloorIsLargest(MaxReduce(legs, side).qty, m.step);
      MinOnStep(qty, reduce, m.step);
      ClampedFits(c, m, RMin(qty, reduce), least, headroom, Some(reduce), binding);
    } else {
      ClampedFits(c, m, qty, least, headroom, None, binding);
    }
    MinSizeClears(m, refPx, q);
    MinSizeClears(m, refPx, least);
    if legs.enforce { HeadroomFits(legs, side, refPx, q); }
  }

  /** The price found rests strictly behind the opposite touch, on a tick, and clears the edge: no recheck can fail. */
  lemma PriceSound(side: Side, bid: real, ask: real, vwap: real, refPx: real, tick: real, e: EdgeConfig)
    requires tick > 0.0 && refPx > 0.0
    ensures var p := PriceOf(side, bid, ask, vwap, refPx, tick, e);
      && p != NoPrice(PostOnlyPriceInvalid)
      && (p.Price? ==>
            && OnStep(p.px, tick) && NetEdge(side, p.px, vwap, refPx, e) >= e.minNetProfit
            && (if side == Buy then 0.0 < p.px < ask else bid < p.px))
  {
    hide FloorToStep, CeilToStep, OnStep, NetEdge, MaxBid, MinAsk;
    match side
    case Buy =>
      var bound := MaxBid(vwap, refPx, e);
      if bound.Some? {
        FloorIsLargest(RMin(ask - tick, bound.value), tick);
        BidInverts(FloorToStep(RMin(ask - tick, bound.value), tick), vwap, refPx, e);
      }
    case Sell =>
      var bound := MinAsk(vwap, refPx, e);
      if bound.Some? {
        CeilIsSmallest(RMax(bid + tick, bound.value), tick);
        AskInverts(CeilToStep(RMax(bid + tick, bound.value), tick), vwap, refPx, e);
      }
  }

  /** A price a maker may rest at: positive, on a tick, a tick or more behind the opposite touch, clearing the edge. */
  ghost predicate Quotable(side: Side, px: real, bid: real, ask: real, vwap: real, refPx: real, tick: real,
          e: EdgeConfig)
  {
    && px > 0.0 && OnStep(px, tick) && (if side == Buy then px <= ask - tick else px >= bid + tick)
    && NetEdge(side, px, vwap, refPx, e) >= e.minNetProfit
  }

  /** The solver can divide, and has an ask: as `AskFound` says of every loaded configuration. */
  predicate Solvable(side: Side, vwap: real, refPx: real, e: EdgeConfig) {
    if side == Buy then 1.0 + BpsToRate(e.makerFee) > 0.0 else MinAsk(vwap, refPx, e).Some?
  }

  /** The price found is the most aggressive one a maker may rest at, and one is found exactly when there is any. */
  lemma PriceBest(side: Side, bid: real, ask: real, vwap: real, refPx: real, tick: real, e: EdgeConfig)
    requires tick > 0.0 && refPx > 0.0 && Solvable(side, vwap, refPx, e)
    ensures var p := PriceOf(side, bid, ask, vwap, refPx, tick, e);
      && (p.Price? ==> Quotable(side, p.px, bid, ask, vwap, refPx, tick, e))
      && (forall px :: Quotable(side, px, bid, ask, vwap, refPx, tick, e) ==>
            p.Price? && if side == Buy then px <= p.px else p.px <= px)
  {
    hide FloorToStep, CeilToStep, OnStep, NetEdge, MaxBid, MinAsk, Quotable;
    var p := PriceOf(side, bid, ask, vwap, refPx, tick, e);
    if p.Price? { FoundQuotable(side, bid, ask, vwap, refPx, tick, e); }
    forall px | Quotable(side, px, bid, ask, vwap, refPx, tick, e)
      ensures p.Price? && if side == Buy then px <= p.px else p.px <= px
    {
      match side
      case Buy => BestBid(px, bid, ask, vwap, refPx, tick, e);
      case Sell => BestAsk(px, bid, ask, vwap, refPx, tick, e);
    }
  }

  lemma FoundQuotable(side: Side, bid: real, ask: real, vwap: real, refPx: real, tick: real, e: EdgeConfig)
    requires tick > 0.0 && refPx > 0.0 && PriceOf(side, bid, ask, vwap, refPx, tick, e).Price?
    ensures Quotable(side, PriceOf(side, bid, ask, vwap, refPx, tick, e).px, bid, ask, vwap, refPx, tick, e)
  {
    hide FloorToStep, CeilToStep, OnStep, NetEdge, MaxBid, MinAsk;
    PriceSound(side, bid, ask, vwap, refPx, tick, e);
    if side == Buy {
      FloorIsLargest(RMin(ask - tick, MaxBid(vwap, refPx, e).value), tick);
    } else {
      CeilIsSmallest(RMax(bid + tick, MinAsk(vwap, refPx, e).value), tick);
      AskInverts(bid, vwap, refPx, e);
    }
  }

  lemma BestBid(px: real, bid: real, ask: real, vwap: real, refPx: real, tick: real, e: EdgeConfig)
    requires tick > 0.0 && refPx > 0.0 && Solvable(Buy, vwap, refPx, e)
    requires Quotable(Buy, px, bid, ask, vwap, refPx, tick, e)
    ensures var p := PriceOf(Buy, bid, ask, vwap, refPx, tick, e); p.Price? && px <= p.px
  {
    hide FloorToStep, NetEdge, MaxBid, Steps;
    BidInverts(px, vwap, refPx, e);
    var k: int :| px == Steps(k, tick);
    FloorIsLargest(RMin(ask - tick, MaxBid(vwap, refPx, e).value), tick);
    assert Steps(k, tick) <= RMin(ask - tick, MaxBid(vwap, refPx, e).value);
  }

  lemma BestAsk(px: real, bid: real, ask: real, vwap: real, refPx: real, tick: real, e: EdgeConfig)
    requires tick > 0.0 && refPx > 0.0 && Solvable(Sell, vwap, refPx, e)
    requires Quotable(Sell, px, bid, ask, vwap, refPx, tick, e)
    ensures var p := PriceOf(Sell, bid, ask, vwap, refPx, tick, e); p.Price? && p.px <= px
  {
    hide CeilToStep, NetEdge, MinAsk, Steps;
    AskInverts(px, vwap, refPx, e);
    var k: int :| px == Steps(k, tick);
    CeilIsSmallest(RMax(bid + tick, MinAsk(vwap, refPx, e).value), tick);
    assert Steps(k, tick) >= RMax(bid + tick, MinAsk(vwap, refPx, e).value);
  }

  /**
   A size that may be quoted: on a step, enough for both venues, inside the enforced caps, shrinking both legs
   under reduce-only, and no more than desired, unless the configuration clamps up to the minimum.
   */
  ghost predicate Allowed(c: QuoteConfig, m: Market, legs: Legs, side: Side, refPx: real, q: real)
    requires refPx != 0.0
  {
    && q > 0.0 && OnStep(q, m.step)
    && q >= m.minQty && Times(q, refPx) >= m.minNotional && Times(q, refPx) >= m.hlMinNotional
    && (legs.enforce ==> WithinCaps(legs, side, q, refPx))
    && (legs.reduceOnly && (legs.aster != 0.0 || legs.hl != 0.0) ==> Shrinks(legs, side, q))
    && (Times(q, refPx) <= c.desiredNotional || (c.clampToMinLot && q == MinSize(m, refPx)))
  }

  /** The size found is the largest that may be quoted, and one is found exactly when there is any. */
  lemma SizeBest(c: QuoteConfig, m: Market, legs: Legs, side: Side, refPx: real)
    requires m.step > 0.0 && refPx > 0.0 && OnStep(m.minQty, m.step)
    ensures var s := SizeOf(c, m, legs, side, refPx);
      && (s.Size? ==> Allowed(c, m, legs, side, refPx, s.qty))
      && (forall q :: Allowed(c, m, legs, side, refPx, q) ==> s.Size? && q <= s.qty)
  {
    hide SizeOf, Allowed;
    if SizeOf(c, m, legs, side, refPx).Size? { FoundAllowed(c, m, legs, side, refPx); }
    forall q | Allowed(c, m, legs, side, refPx, q)
      ensures SizeOf(c, m, legs, side, refPx).Size? && q <= SizeOf(c, m, legs, side, refPx).qty
    {
      AllowedFound(c, m, legs, side, refPx, q);
    }
  }

  /** The size found is no more than desired, or the minimum. */
  lemma DesiredOrLeast(c: QuoteConfig, m: Market, legs: Legs, side: Side, refPx: real)
    requires refPx != 0.0 && SizeOf(c, m, legs, side, refPx).Size?
    ensures var q := SizeOf(c, m, legs, side, refPx).qty;
      q <= FloorToStep(Over(c.desiredNotional, refPx), m.step) || (c.clampToMinLot && q == MinSize(m, refPx))
  {
    hide FloorToStep, MinSize, AsterHeadroom, HlHeadroom;
  }

  lemma FoundAllowed(c: QuoteConfig, m: Market, legs: Legs, side: Side, refPx: real)
    requires m.step > 0.0 && refPx > 0.0 && OnStep(m.minQty, m.step) && SizeOf(c, m, legs, side, refPx).Size?
    ensures Allowed(c, m, legs, side, refPx, SizeOf(c, m, legs, side, refPx).qty)
  {
    hide Times, Over, FloorToStep, MinSize, OnStep, SizeOf, WithinCaps, Shrinks;
    SizeSound(c, m, legs, side, refPx);
    DesiredOrLeast(c, m, legs, side, refPx);
    FloorIsLargest(Over(c.desiredNotional, refPx), m.step);
    OverBounds(c.desiredNotional, refPx, SizeOf(c, m, legs, side, refPx).qty);
  }

  /** A whole number of steps at or below a quantity is at or below its floor. */
  lemma BelowFloor(q: real, x: real, step: real)
    requires step > 0.0 && OnStep(q, step) && q <= x
    ensures q <= FloorToStep(x, step)
  {
    hide FloorToStep, Steps;
    FloorIsLargest(x, step);
    var k: int :| q == Steps(k, step);
    assert Steps(k, step) <= x;
  }

  lemma AboveCeil(q: real, x: real, step: real)
    requires step > 0.0 && OnStep(q, step) && x <= q
    ensures CeilToStep(x, step) <= q
  {
    hide CeilToStep, Steps;
    CeilIsSmallest(x, step);
    var k: int :| q == Steps(k, step);
    assert x <= Steps(k, step);
  }

  /** A size enough for both venues is at least the minimum. */
  lemma AtLeastMin(m: Market, refPx: real, q: real)
    requires m.step > 0.0 && refPx > 0.0 && OnStep(q, m.step)
    requires q >= m.minQty && Times(q, refPx) >= m.minNotional && Times(q, refPx) >= m.hlMinNotional
    ensures q >= MinSize(m, refPx)
  {
    hide Times, Over, CeilToStep, OnStep;
    OverBounds(m.minNotional, refPx, q);
    OverBounds(m.hlMinNotional, refPx, q);
    AboveCeil(q, Over(m.minNotional, refPx), m.step);
    AboveCeil(q, Over(m.hlMinNotional, refPx), m.step);
  }

  /** A size inside the caps fits both headrooms. */
  lemma CapsLeave(legs: Legs, side: Side, refPx: real, q: real)
    requires refPx > 0.0 && q > 0.0 && WithinCaps(legs, side, q, refPx)
    ensures q <= AsterHeadroom(legs, side, refPx) && q <= HlHeadroom(legs, side, refPx)
  {
    hide Times, Over;
    if side == Buy {
      OverBounds(legs.asterCap, refPx, AsterAfter(legs, side, q));
      OverBounds(legs.hlCap, refPx, -HlAfter(legs, side, q));
    } else {
      OverBounds(legs.asterCap, refPx, -AsterAfter(legs, side, q));
      OverBounds(legs.hlCap, refPx, HlAfter(legs, side, q));
    }
  }

  /** Where an allowed size stands against each limit the sizing works with. */
  lemma AllowedFits(c: QuoteConfig, m: Market, legs: Legs, side: Side, refPx: real, q: real)
    requires m.step > 0.0 && refPx > 0.0 && Allowed(c, m, legs, side, refPx, q)
    ensures q >= MinSize(m, refPx) && (legs.enforce ==> q <= CapOf(m, legs, side, refPx).0)
    ensures q <= FloorToStep(Over(c.desiredNotional, refPx), m.step) || (c.clampToMinLot && q == MinSize(m, refPx))
    ensures var r := MaxReduce(legs, side);
      legs.reduceOnly ==> !r.Refused? && (r.Upto? ==> q <= FloorToStep(r.qty, m.step))
  {
    hide Times, Over, FloorToStep, MinSize, OnStep, AsterHeadroom, HlHeadroom, WithinCaps;
    AtLeastMin(m, refPx, q);
    if legs.enforce {
      CapsLeave(legs, side, refPx, q);
      BelowFloor(q, RMin(AsterHeadroom(legs, side, refPx), HlHeadroom(legs, side, refPx)), m.step);
    }
    OverBounds(c.desiredNotional, refPx, q);
    if q <= Over(c.desiredNotional, refPx) { BelowFloor(q, Over(c.desiredNotional, refPx), m.step); }
    if legs.reduceOnly && MaxReduce(legs, side).Upto? { BelowFloor(q, MaxReduce(legs, side).qty, m.step); }
  }

  lemma AllowedFound(c: QuoteConfig, m: Market, legs: Legs, side: Side, refPx: real, q: real)
    requires m.step > 0.0 && refPx > 0.0 && Allowed(c, m, legs, side, refPx, q)
    ensures SizeOf(c, m, legs, side, refPx).Size? && q <= SizeOf(c, m, legs, side, refPx).qty
  {
    hide FloorToStep, MinSize, AsterHeadroom, HlHeadroom, Over, Times, WithinCaps, Shrinks, CapOf;
    AllowedFits(c, m, legs, side, refPx, q);
    assert q > 0.0;
  }

  /** The parts of a quote's soundness. */
  ghost predicate Sound(e: EdgeConfig, c: QuoteConfig, m: Market, legs: Legs, side: Side, touch: OrderBook, q: Quote)
    requires touch.bids != [] && touch.asks != []
  {
    && OnStep(q.price, m.tick) && (if side == Buy then 0.0 < q.price < touch.asks[0].px else touch.bids[0].px < q.price)
    && q.qty > 0.0 && OnStep(q.qty, m.step)
    && q.qty >= m.minQty && Times(q.qty, q.price) >= m.minNotional && Times(q.qty, q.refPx) >= m.hlMinNotional
    && (legs.enforce ==> WithinCaps(legs, side, q.qty, q.refPx))
    && (legs.reduceOnly && (legs.aster != 0.0 || legs.hl != 0.0) ==> Shrinks(legs, side, q.qty))
    && q.edgeBps == NetEdge(side, q.price, q.vwap, q.refPx, e) >= e.minNetProfit
    && q.refPx > 0.0 && c.minTouchDistanceBps <= Distance(side, q.touchPx, q.price, q.refPx) <= c.maxDistanceBps
  }

  /**
   Every quote given is sound, and with a positive tick the rejections that recheck a rounded price are
   never given.
   */
  lemma QuoteSound(e: EdgeConfig, c: QuoteConfig, m: Market, legs: Legs, side: Side, depth: OrderBook, touch: OrderBook,
          touchIsBbo: bool, hl: OrderBook)
    requires m.tick > 0.0 && m.step > 0.0 && OnStep(m.minQty, m.step)
    ensures var r := DesiredQuote(e, c, m, legs, side, depth, touch, touchIsBbo, hl);
      && r != Rejected(PostOnlyPriceInvalid) && r != Rejected(EdgeBelowMinAfterRounding)
      && (r.Quoted? ==> touch.bids != [] && touch.asks != [] && Sound(e, c, m, legs, side, touch, r.q))
  {
    hide SizeOf, PriceOf, NetEdge, Distance, WithinCaps, Shrinks, OnStep, Times;
    hide EffectiveTouch, FullVwap, Slippage, RefOf;
    if touch.bids != [] && touch.asks != [] && hl.bids != [] && hl.asks != [] && RefOf(touch, hl) > 0.0 {
      var refPx := RefOf(touch, hl);
      NoSizeReason(c, m, legs, side, refPx);
      var size := SizeOf(c, m, legs, side, refPx);
      if size.Size? {
        SizeSound(c, m, legs, side, refPx);
        var target := Times(size.qty, RMax(c.depthMultiple, 1.0));
        var vwap := FullVwap(MySide(hl, side), target);
        if vwap.Some? {
          PriceSound(side, touch.bids[0].px, touch.asks[0].px, vwap.value, refPx, m.tick, e);
          NoPriceReason(side, touch.bids[0].px, touch.asks[0].px, vwap.value, refPx, m.tick, e);
          CapReason(c, m, legs, side, refPx);
        }
      }
    }
  }

  /** A size is refused, or bound, only for reasons of size. */
  lemma NoSizeReason(c: QuoteConfig, m: Market, legs: Legs, side: Side, refPx: real)
    requires refPx != 0.0
    ensures var s := SizeOf(c, m, legs, side, refPx);
      s.NoSize? ==> s.reason != PostOnlyPriceInvalid && s.reason != EdgeBelowMinAfterRounding
  {
    hide FloorToStep, MinSize, AsterHeadroom, HlHeadroom;
  }

  lemma CapReason(c: QuoteConfig, m: Market, legs: Legs, side: Side, refPx: real)
    requires refPx != 0.0
    ensures var s := SizeOf(c, m, legs, side, refPx);
      s.Size? && s.binding.Some? ==> s.binding.value == AsterCapReached || s.binding.value == LighterCapReached
  {
    hide FloorToStep, MinSize, AsterHeadroom, HlHeadroom;
  }

  lemma NoPriceReason(side: Side, bid: real, ask: real, vwap: real, refPx: real, tick: real, e: EdgeConfig)
    ensures PriceOf(side, bid, ask, vwap, refPx, tick, e) != NoPrice(EdgeBelowMinAfterRounding)
  {
  }

  /** With legs inside their caps before, an enforced quote leaves both inside. */
  lemma CapsHold(legs: Legs, side: Side, qty: real, refPx: real)
    requires refPx > 0.0 && qty > 0.0 && WithinCaps(legs, side, qty, refPx)
    requires Times(RAbs(legs.aster), refPx) <= legs.asterCap && Times(RAbs(legs.hl), refPx) <= legs.hlCap
    ensures Times(RAbs(AsterAfter(legs, side, qty)), refPx) <= legs.asterCap
    ensures Times(RAbs(HlAfter(legs, side, qty)), refPx) <= legs.hlCap
  {
    hide Times;
    var aster, hl := AsterAfter(legs, side, qty), HlAfter(legs, side, qty);
    TimesOrders(RAbs(aster), RMax(RAbs(legs.aster), if side == Buy then aster else -aster), refPx);
    TimesOrders(RAbs(hl), RMax(RAbs(legs.hl), if side == Buy then -hl else hl), refPx);
  }

  /** The edge at the quote's own size is at least the one it was priced at, on the depth multiple. */
  lemma EdgeAtOwnSize(e: EdgeConfig, c: QuoteConfig, m: Market, legs: Legs, side: Side, depth: OrderBook,
          touch: OrderBook, touchIsBbo: bool, hl: OrderBook)
    requires DesiredQuote(e, c, m, legs, side, depth, touch, touchIsBbo, hl).Quoted?
    requires m.step > 0.0 && OnStep(m.minQty, m.step) && -10000.0 <= e.takerFee <= 10000.0
    requires Solid(hl.bids) && Solid(hl.asks) && Ordered(true, hl.bids) && Ordered(false, hl.asks)
    ensures var q := DesiredQuote(e, c, m, legs, side, depth, touch, touchIsBbo, hl).q; var levels := MySide(hl, side);
      && Taken(levels, q.qty) == q.qty > 0.0
      && NetEdge(side, q.price, VwapOf(levels, q.qty), q.refPx, e) >= q.edgeBps
  {
    hide SizeOf, PriceOf, NetEdge, Distance, OnStep, Times, EffectiveTouch, Slippage, RefOf, VwapOf, Taken, Ordered;
    var q := DesiredQuote(e, c, m, legs, side, depth, touch, touchIsBbo, hl).q;
    var levels := MySide(hl, side);
    var refPx := RefOf(touch, hl);
    SizeSound(c, m, legs, side, refPx);
    var size := SizeOf(c, m, legs, side, refPx);
    AtLeastItself(size.qty, RMax(c.depthMultiple, 1.0));
    TakenIsLess(levels, q.qty);
    TakenIsLess(levels, q.depthTarget);
    BookOrderWalks(side == Buy, levels);
    if side == Buy { BidsWorsen(levels, q.qty, q.depthTarget); } else { AsksWorsen(levels, q.qty, q.depthTarget); }
    BetterHedge(side, q.price, q.vwap, VwapOf(levels, q.qty), refPx, e);
  }

  lemma AtLeastItself(x: real, k: real)
    requires x > 0.0 && k >= 1.0
    ensures Times(x, k) >= x
  {
    assert x * (k - 1.0) >= 0.0;
  }

  // ---------------------------------------------------------------- as it runs

  /** The quantity rewritten gate by gate. */
  method ChooseSize(c: QuoteConfig, m: Market, legs: Legs, side: Side, refPx: real) returns (r: Size)
    requires refPx > 0.0
    ensures r == SizeOf(c, m, legs, side, refPx)
  {
    hide FloorToStep, MinSize, AsterHeadroom, HlHeadroom, Over;
    var qty := FloorToStep(Over(c.desiredNotional, refPx), m.step);
    var least := MinSize(m, refPx);
    var binding, headroom, reduce := None, None, None;
    if legs.enforce {
      var a, h := AsterHeadroom(legs, side, refPx), HlHeadroom(legs, side, refPx);
      var capped := FloorToStep(if a <= h then a else h, m.step);
      headroom := Some(capped);
      if capped < qty {
        qty := capped;
        binding := Some(if a <= h then AsterCapReached else LighterCapReached);
      }
    }
    if legs.reduceOnly {
      match MaxReduce(legs, side) {
        case Refused => return NoSize(PositionReduceOnly);
        case Free =>
        case Upto(most) =>
          var capped := FloorToStep(most, m.step);
          if capped <= 0.0 { return NoSize(PositionReduceOnly); }
          reduce := Some(capped);
          if capped < qty { qty := capped; }
      }
    }
    if reduce.Some? && least > reduce.value { return NoSize(PositionReduceOnly); }
    if c.clampToMinLot && qty < least {
      if headroom.Some? && least > headroom.value { return NoSize(OrElse(binding, MinLotExceedsHeadroom)); }
      qty := least;
    }
    if qty <= 0.0 || qty < least {
      if reduce.Some? && reduce.value < m.minQty { return NoSize(PositionReduceOnly); }
      return NoSize(OrElse(binding, QuantityBelowMinimum));
    }
    r := Size(qty, binding);
  }

  method FindTouch(depth: OrderBook, touch: OrderBook, touchIsBbo: bool, side: Side, target: real, maxStalenessMs: int)
    returns (px: Option<real>)
    requires MySide(touch, side) != []
    ensures px == EffectiveTouch(depth, touch, touchIsBbo, side, target, maxStalenessMs)
  {
    var raw := MySide(touch, side)[0];
    if touchIsBbo && raw.qty >= target { return Some(raw.px); }
    if depth.ageMs > maxStalenessMs || Crossed(depth) || depth.bids == [] || depth.asks == [] { return None; }
    var levels := MySide(depth, side);
    var cumulative, used := 0.0, 0;
    assert levels[0..] == levels;
    while used < |levels|
      invariant 0 <= used <= |levels|
      invariant Reach(levels[used..], target, cumulative) == Reach(levels, target, 0.0)
    {
      assert levels[used..][1..] == levels[used + 1..];
      cumulative := cumulative + levels[used].qty;
      if cumulative >= target { return Some(levels[used].px); }
      used := used + 1;
    }
    px := None;
  }

  /** The walk for the whole quantity, if the side can fill it. */
  method TakeAll(buying: bool, levels: seq<Level>, qty: real) returns (r: Option<Walk>)
    ensures r.Some? <==> FullVwap(levels, qty).Some?
    ensures r.Some? ==>
      r.value.vwap == FullVwap(levels, qty).value && r.value.slippageBps == Slippage(buying, r.value.vwap, levels[0].px)
  {
    hide Taken, Notional, Average, Slippage;
    r := TakePartial(buying, levels, qty);
    if r.Some? && r.value.exhausted { r := None; }
  }

  method ComputeDesiredQuote(e: EdgeConfig, c: QuoteConfig, m: Market, legs: Legs, side: Side, depth: OrderBook,
          touch: OrderBook, touchIsBbo: bool, hl: OrderBook)
    returns (r: Result)
    ensures r == DesiredQuote(e, c, m, legs, side, depth, touch, touchIsBbo, hl)
  {
    hide SizeOf, EffectiveTouch, FullVwap, NetEdge, Distance, PriceOf, RefOf, Slippage, Times;
    if touch.bids == [] || touch.asks == [] { return Rejected(MissingAsterBook); }
    if Crossed(touch) { return Rejected(BookCrossed); }
    if hl.bids == [] || hl.asks == [] { return Rejected(MissingMid); }
    if touch.ageMs > m.maxStalenessMs { return Rejected(AsterBookStale); }
    if hl.ageMs > m.maxStalenessMs { return Rejected(HlBookStale); }
    var refPx := RefOf(touch, hl);
    if refPx <= 0.0 { return Rejected(MissingMid); }
    var size := ChooseSize(c, m, legs, side, refPx);
    if size.NoSize? { return Rejected(size.reason); }
    var target := Times(size.qty, RMax(c.depthMultiple, 1.0));
    var hedge := TakeAll(side == Sell, MySide(hl, side), target);
    if hedge.None? { return Rejected(HedgeVwapUnavailable); }
    if hedge.value.slippageBps > c.maxSlippageBps { return Rejected(HedgeSlippageTooHigh); }
    var price := PriceOf(side, touch.bids[0].px, touch.asks[0].px, hedge.value.vwap, refPx, m.tick, e);
    if price.NoPrice? { return Rejected(price.reason); }
    var edge := NetEdge(side, price.px, hedge.value.vwap, refPx, e);
    if edge < e.minNetProfit { return Rejected(EdgeBelowMinAfterRounding); }
    if Times(size.qty, price.px) < m.minNotional {
      return Rejected(if legs.reduceOnly then PositionReduceOnly else OrElse(size.binding, QuantityBelowMinimum));
    }
    var near := FindTouch(depth, touch, touchIsBbo, side, target, m.maxStalenessMs);
    if near.None? { return Rejected(EffectiveTouchUnavailable); }
    var distance := Distance(side, near.value, price.px, refPx);
    if distance > c.maxDistanceBps { return Rejected(QuoteTooFar); }
    if distance < c.minTouchDistanceBps { return Rejected(QuoteTooClose); }
    r := Quoted(Quote(price.px, size.qty, hedge.value.vwap, edge, refPx, target, near.value));
  }
}

/**
 When the quote pipeline quotes and when it refuses (LIGHTER_ASTER_BOT/src/quote_engine.rs): exactly which quote
 is given, and the reason where there is none.
 */
module Refusals {
  import opened Common
  import opened Reals
  import opened Decimals
  import opened Books
  import opened Vwap
  import opened Edge
  import opened Quoting
  import opened Answers

  // ---------------------------------------------------------------- the quote that is given

  ghost predicate LargestSize(c: QuoteConfig, m: Market, legs: Legs, side: Side, refPx: real, qty: real)
    requires refPx != 0.0
  {
    Allowed(c, m, legs, side, refPx, qty) && forall q :: Allowed(c, m, legs, side, refPx, q) ==> q <= qty
  }

  ghost predicate BestPrice(e: EdgeConfig, side: Side, bid: real, ask: real, vwap: real, refPx: real, tick: real,
          px: real)
  {
    && Quotable(side, px, bid, ask, vwap, refPx, tick, e)
    && forall p :: Quotable(side, p, bid, ask, vwap, refPx, tick, e) ==> if side == Buy then p <= px else px <= p
  }

  /** The hedge of a target: the side fills it, at this average, within the slippage bound. */
  ghost predicate HedgesAt(c: QuoteConfig, hl: OrderBook, side: Side, target: real, vwap: real) {
    && HedgeLevels(hl, side) != [] && Depth(HedgeLevels(hl, side)) >= target
    && AverageIs(HedgeLevels(hl, side), target, vwap)
    && SlipsWithin(HedgeLevels(hl, side), side, vwap, c.maxSlippageBps)
  }

  /** The price lies within the distances of the touch. */
  ghost predicate Near(c: QuoteConfig, side: Side, refPx: real, px: real, touchPx: real) {
    Times(c.minTouchDistanceBps, refPx) <= Behind(side, touchPx, px) * 10000.0 <= Times(c.maxDistanceBps, refPx)
  }

  function Target(c: QuoteConfig, qty: real): real { Times(qty, RMax(c.depthMultiple, 1.0)) }

  /** The quote to make: the largest size, its hedge, the best price for that, worth the minimum, near the touch. */
  ghost predicate Makes(e: EdgeConfig, c: QuoteConfig, m: Market, legs: Legs, side: Side, depth: OrderBook,
          touch: OrderBook, touchIsBbo: bool, hl: OrderBook, q: Quote)
    requires Usable(m, touch, hl)
  {
    && q.refPx == Touches(touch, hl) / 4.0 && LargestSize(c, m, legs, side, q.refPx, q.qty)
    && q.depthTarget == Target(c, q.qty) && HedgesAt(c, hl, side, q.depthTarget, q.vwap)
    && BestPrice(e, side, touch.bids[0].px, touch.asks[0].px, q.vwap, q.refPx, m.tick, q.price)
    && Times(q.qty, q.price) >= m.minNotional
    && TouchIs(depth, touch, touchIsBbo, side, q.depthTarget, m.maxStalenessMs, q.touchPx)
    && Near(c, side, q.refPx, q.price, q.touchPx)
    && EdgeIs(e, side, q.price, q.vwap, q.refPx, q.edgeBps)
  }

  /** What the configuration and the market's rules are: positive steps, and maker fees between minus one and one. */
  ghost predicate Configured(e: EdgeConfig, m: Market) {
    && m.tick > 0.0 && m.step > 0.0 && OnStep(m.minQty, m.step) && Loaded(e) && -1.0 < BpsToRate(e.makerFee) < 1.0
  }

  /** A quote is given exactly when the books are usable and there is one to make, and it is that one. */
  lemma QuotedExactly(e: EdgeConfig, c: QuoteConfig, m: Market, legs: Legs, side: Side, depth: OrderBook,
          touch: OrderBook, touchIsBbo: bool, hl: OrderBook)
    requires Configured(e, m) && Solid(hl.bids) && Solid(hl.asks)
    ensures var r := DesiredQuote(e, c, m, legs, side, depth, touch, touchIsBbo, hl);
      && (r.Quoted? ==> Usable(m, touch, hl) && Makes(e, c, m, legs, side, depth, touch, touchIsBbo, hl, r.q))
      && (Usable(m, touch, hl) ==>
            forall q :: Makes(e, c, m, legs, side, depth, touch, touchIsBbo, hl, q) ==> r == Quoted(q))
  {
    hide Makes, DesiredQuote, Usable, Solid;
    var r := DesiredQuote(e, c, m, legs, side, depth, touch, touchIsBbo, hl);
    if r.Quoted? { GivenIsMade(e, c, m, legs, side, depth, touch, touchIsBbo, hl); }
    if Usable(m, touch, hl) {
      forall q | Makes(e, c, m, legs, side, depth, touch, touchIsBbo, hl, q) ensures r == Quoted(q) {
        MadeIsGiven(e, c, m, legs, side, depth, touch, touchIsBbo, hl, q);
      }
    }
  }

  lemma GivenIsMade(e: EdgeConfig, c: QuoteConfig, m: Market, legs: Legs, side: Side, depth: OrderBook,
          touch: OrderBook, touchIsBbo: bool, hl: OrderBook)
    requires Configured(e, m) && Solid(hl.bids) && Solid(hl.asks)
    requires DesiredQuote(e, c, m, legs, side, depth, touch, touchIsBbo, hl).Quoted?
    ensures var q := DesiredQuote(e, c, m, legs, side, depth, touch, touchIsBbo, hl).q;
      Usable(m, touch, hl) && Makes(e, c, m, legs, side, depth, touch, touchIsBbo, hl, q)
  {
    hide SizeOf, PriceOf, NetEdge, Distance, Times, EffectiveTouch, FullVwap, Slippage, RefOf, EdgeIs, TouchIs,
         AverageIs, Allowed, Quotable, OnStep, MaxBid, MinAsk, SlipsWithin, Touches;
    QuoteSays(e, c, m, legs, side, depth, touch, touchIsBbo, hl);
    RefIs(touch, hl);
    var q := DesiredQuote(e, c, m, legs, side, depth, touch, touchIsBbo, hl).q;
    SizeBest(c, m, legs, side, q.refPx);
    Asked(HedgeLevels(hl, side), q.depthTarget);
    HedgePays(HedgeLevels(hl, side), q.depthTarget, q.vwap);
    SolvesHere(e, side, q.vwap, q.refPx);
    PriceBest(side, touch.bids[0].px, touch.asks[0].px, q.vwap, q.refPx, m.tick, e);
  }

  lemma MadeIsGiven(e: EdgeConfig, c: QuoteConfig, m: Market, legs: Legs, side: Side, depth: OrderBook,
          touch: OrderBook, touchIsBbo: bool, hl: OrderBook, q: Quote)
    requires Configured(e, m) && Solid(hl.bids) && Solid(hl.asks)
    requires Usable(m, touch, hl) && Makes(e, c, m, legs, side, depth, touch, touchIsBbo, hl, q)
    ensures DesiredQuote(e, c, m, legs, side, depth, touch, touchIsBbo, hl) == Quoted(q)
  {
    hide SizeOf, PriceOf, NetEdge, Distance, Times, EffectiveTouch, FullVwap, Slippage, RefOf, EdgeIs, TouchIs,
         AverageIs, Allowed, Quotable, OnStep, MaxBid, MinAsk, SlipsWithin, Touches, Depth;
    RefIs(touch, hl);
    var levels := HedgeLevels(hl, side);
    assert q.refPx == RefOf(touch, hl);
    SizeBest(c, m, legs, side, q.refPx);
    var size := SizeOf(c, m, legs, side, q.refPx);
    assert size.Size? && size.qty == q.qty;
    SizePositive(c, m, legs, side, q.refPx);
    TargetPositive(c, q.qty);
    AverageHere(levels, q.depthTarget);
    AverageOnce(levels, q.depthTarget, q.vwap);
    assert FullVwap(levels, q.depthTarget) == Some(q.vwap);
    SlipsHere(levels, side, q.vwap, c.maxSlippageBps);
    HedgePays(levels, q.depthTarget, q.vwap);
    SolvesHere(e, side, q.vwap, q.refPx);
    PriceBest(side, touch.bids[0].px, touch.asks[0].px, q.vwap, q.refPx, m.tick, e);
    PriceSound(side, touch.bids[0].px, touch.asks[0].px, q.vwap, q.refPx, m.tick, e);
    assert PriceOf(side, touch.bids[0].px, touch.asks[0].px, q.vwap, q.refPx, m.tick, e) == Price(q.price);
    TouchHere(depth, touch, touchIsBbo, side, q.depthTarget, m.maxStalenessMs);
    DistanceIs(side, q.touchPx, q.price, q.refPx, c.maxDistanceBps);
    DistanceIs(side, q.touchPx, q.price, q.refPx, c.minTouchDistanceBps);
    EdgeHere(e, side, q.price, q.vwap, q.refPx);
    EdgeOnce(e, side, q.price, q.vwap, q.refPx, q.edgeBps, NetEdge(side, q.price, q.vwap, q.refPx, e));
  }

  lemma EdgeOnce(e: EdgeConfig, side: Side, px: real, vwap: real, refPx: real, x: real, y: real)
    requires refPx > 0.0 && EdgeIs(e, side, px, vwap, refPx, x) && EdgeIs(e, side, px, vwap, refPx, y)
    ensures x == y
  {
    hide Times;
    var buffers := e.slippageBuffer + e.latencyBuffer + e.basisBuffer + e.fundingBuffer;
    assert x + buffers == x + e.slippageBuffer + e.latencyBuffer + e.basisBuffer + e.fundingBuffer;
    assert y + buffers == y + e.slippageBuffer + e.latencyBuffer + e.basisBuffer + e.fundingBuffer;
    TimesOrders(x + buffers, y + buffers, refPx);
    TimesOrders(y + buffers, x + buffers, refPx);
  }

  lemma TargetPositive(c: QuoteConfig, qty: real)
    requires qty > 0.0
    ensures Target(c, qty) > 0.0
  {
    assert RMax(c.depthMultiple, 1.0) >= 1.0;
    TimesOrders(0.0, qty, RMax(c.depthMultiple, 1.0));
    TimesLess(0.0, qty, RMax(c.depthMultiple, 1.0));
    TimesSum(0.0, 0.0, RMax(c.depthMultiple, 1.0));
  }

  lemma SlipsHere(levels: seq<Level>, side: Side, vwap: real, most: real)
    requires levels != [] && levels[0].px > 0.0
    ensures SlipsWithin(levels, side, vwap, most) <==> Slippage(side == Sell, vwap, levels[0].px) <= most
  {
    hide Slippage, Times;
    SlippageWithin(side == Sell, vwap, levels[0].px, most);
  }

  lemma SolvesHere(e: EdgeConfig, side: Side, vwap: real, refPx: real)
    requires Loaded(e) && -1.0 < BpsToRate(e.makerFee) < 1.0 && vwap > 0.0 && refPx > 0.0
    ensures Solvable(side, vwap, refPx, e)
  {
    hide MinAsk;
    AskFound(vwap, refPx, e);
  }

  /** A hedge that takes anything has a positive price. */
  lemma HedgePays(levels: seq<Level>, target: real, vwap: real)
    requires Solid(levels) && levels != [] && target > 0.0 && AverageIs(levels, target, vwap)
    ensures vwap > 0.0
  {
    hide Times, Paid;
    PaidPositive(levels, |levels|, target);
    TimesOrders(vwap, 0.0, target);
    TimesSum(0.0, 0.0, target);
  }

  lemma {:induction false} PaidPositive(levels: seq<Level>, n: nat, target: real)
    requires Solid(levels) && 0 < n <= |levels| && target > 0.0
    ensures Paid(levels, n, target) > 0.0
  {
    hide Times;
    var l, q := levels[n - 1], RMax(RMin(levels[n - 1].qty, target - QtyBefore(levels, n - 1)), 0.0);
    TimesOrders(0.0, q, l.px);
    TimesSum(0.0, 0.0, l.px);
    if n == 1 {
      TimesLess(0.0, q, l.px);
    } else {
      PaidPositive(levels, n - 1, target);
    }
  }

  // ---------------------------------------------------------------- the reason of a size refused

  /** What a venue's cap leaves its leg, in notional at the reference price; nothing when past it. */
  function AsterRoom(legs: Legs, side: Side, refPx: real): real {
    var held := Times(legs.aster, refPx);
    RMax(if side == Buy then legs.asterCap - held else legs.asterCap + held, 0.0)
  }

  function LighterRoom(legs: Legs, side: Side, refPx: real): real {
    var held := Times(legs.hl, refPx);
    RMax(if side == Buy then legs.hlCap + held else legs.hlCap - held, 0.0)
  }

  /** What both caps leave. */
  function Room(legs: Legs, side: Side, refPx: real): real {
    RMin(AsterRoom(legs, side, refPx), LighterRoom(legs, side, refPx))
  }

  /** The largest size on a step that this notional allows. */
  ghost predicate WholeSteps(m: Market, refPx: real, notional: real, q: real) {
    && OnStep(q, m.step) && Times(q, refPx) <= notional
    && forall x :: OnStep(x, m.step) && Times(x, refPx) <= notional ==> x <= q
  }

  /** The caps leave fewer whole steps than the desired notional has. */
  ghost predicate CapsBind(c: QuoteConfig, m: Market, legs: Legs, side: Side, refPx: real) {
    && legs.enforce
    && exists x, y ::
         x < y && WholeSteps(m, refPx, Room(legs, side, refPx), x) && WholeSteps(m, refPx, c.desiredNotional, y)
  }

  /** The least size both venues accept does not fit under the caps. */
  ghost predicate LeastPastCaps(m: Market, legs: Legs, side: Side, refPx: real)
    requires refPx != 0.0
  {
    && legs.enforce
    && exists x :: x < MinSize(m, refPx) && WholeSteps(m, refPx, Room(legs, side, refPx), x)
  }

  /** Only orders that shrink both legs are let through, and none that both venues accept does. */
  ghost predicate CannotReduce(m: Market, legs: Legs, side: Side, refPx: real)
    requires refPx != 0.0
  {
    && legs.reduceOnly && (legs.aster != 0.0 || legs.hl != 0.0)
    && forall q :: q > 0.0 && OnStep(q, m.step) && Shrinks(legs, side, q) ==> q < MinSize(m, refPx)
  }

  /** The reason the first cap met gives. */
  ghost function CapsReason(legs: Legs, side: Side, refPx: real): Reason {
    if AsterRoom(legs, side, refPx) <= LighterRoom(legs, side, refPx) then AsterCapReached else LighterCapReached
  }

  /** The whole steps a notional allows, as the sizing rounds them. */
  lemma WholeHere(m: Market, refPx: real, notional: real)
    requires m.step > 0.0 && refPx > 0.0
    ensures forall q :: WholeSteps(m, refPx, notional, q) <==> q == FloorToStep(Over(notional, refPx), m.step)
  {
    hide FloorToStep, OnStep, Over, Times;
    var r := FloorToStep(Over(notional, refPx), m.step);
    FloorIsLargest(Over(notional, refPx), m.step);
    OverBounds(notional, refPx, r);
    forall x | OnStep(x, m.step) && Times(x, refPx) <= notional ensures x <= r {
      OverBounds(notional, refPx, x);
      BelowFloor(x, Over(notional, refPx), m.step);
    }
    assert WholeSteps(m, refPx, notional, r);
  }

  /** A headroom is its leg's room at the reference price. */
  lemma RoomsAre(legs: Legs, side: Side, refPx: real)
    requires refPx > 0.0
    ensures AsterHeadroom(legs, side, refPx) == Over(AsterRoom(legs, side, refPx), refPx)
    ensures HlHeadroom(legs, side, refPx) == Over(LighterRoom(legs, side, refPx), refPx)
  {
    hide Over, Times;
    RoomIs(legs.asterCap, if side == Buy then -legs.aster else legs.aster, refPx);
    RoomIs(legs.hlCap, if side == Buy then legs.hl else -legs.hl, refPx);
    TimesSum(legs.aster, 0.0, refPx);
    TimesSum(legs.hl, 0.0, refPx);
  }

  lemma RoomIs(cap: real, held: real, refPx: real)
    requires refPx > 0.0
    ensures RMax(Over(cap, refPx) + held, 0.0) == Over(RMax(cap + Times(held, refPx), 0.0), refPx)
  {
    OverSum(cap, held, refPx);
    OverBounds(cap + Times(held, refPx), refPx, 0.0);
    assert Over(0.0, refPx) == 0.0;
    hide Over, Times;
    TimesSum(0.0, 0.0, refPx);
  }

  lemma OverSum(cap: real, held: real, refPx: real)
    requires refPx > 0.0
    ensures Over(cap, refPx) + held == Over(cap + Times(held, refPx), refPx)
  {
    assert (cap + held * refPx) / refPx == cap / refPx + held;
  }

  lemma OverOrders(x: real, y: real, d: real)
    requires d > 0.0
    ensures Over(x, d) <= Over(y, d) <==> x <= y
  {
    hide Over;
    if x <= y { OverGrows(x, y, d); } else { OverLess(y, x, d); }
  }

  lemma OverLess(x: real, y: real, d: real)
    requires x < y && d > 0.0
    ensures Over(x, d) < Over(y, d)
  {
  }

  /** The cap met first, how many steps it leaves, and what it is compared with. */
  lemma CapIs(c: QuoteConfig, m: Market, legs: Legs, side: Side, refPx: real)
    requires m.step > 0.0 && refPx > 0.0
    ensures var cap, desired := CapOf(m, legs, side, refPx), FloorToStep(Over(c.desiredNotional, refPx), m.step);
      && cap.1 == CapsReason(legs, side, refPx)
      && (CapsBind(c, m, legs, side, refPx) <==> legs.enforce && cap.0 < desired)
      && (LeastPastCaps(m, legs, side, refPx) <==> legs.enforce && cap.0 < MinSize(m, refPx))
  {
    hide FloorToStep, Over, MinSize, AsterHeadroom, HlHeadroom, AsterRoom, LighterRoom, WholeSteps;
    var a, h := AsterRoom(legs, side, refPx), LighterRoom(legs, side, refPx);
    RoomsAre(legs, side, refPx);
    OverOrders(a, h, refPx);
    WholeHere(m, refPx, Room(legs, side, refPx));
    WholeHere(m, refPx, c.desiredNotional);
    var cap, desired := CapOf(m, legs, side, refPx), FloorToStep(Over(c.desiredNotional, refPx), m.step);
    assert cap.0 == FloorToStep(if a <= h then Over(a, refPx) else Over(h, refPx), m.step);
    assert WholeSteps(m, refPx, Room(legs, side, refPx), cap.0) && WholeSteps(m, refPx, c.desiredNotional, desired);
  }

  /** A reduction that both venues accept exists exactly when what may be reduced has that many steps. */
  lemma ReduceIs(m: Market, legs: Legs, side: Side, refPx: real)
    requires m.step > 0.0 && refPx > 0.0
    ensures var r := MaxReduce(legs, side);
      CannotReduce(m, legs, side, refPx) <==>
        legs.reduceOnly && (r.Refused? || (r.Upto? && ReducesTooLittle(m, refPx, r.qty)))
  {
    hide FloorToStep, OnStep, MinSize, Shrinks;
    var r := MaxReduce(legs, side);
    forall q | q > 0.0 ensures Shrinks(legs, side, q) <==> r.Upto? && q <= r.qty { ShrinksUpto(legs, side, q); }
    if r.Upto? {
      FloorIsLargest(r.qty, m.step);
      forall q | OnStep(q, m.step) && q <= r.qty ensures q <= FloorToStep(r.qty, m.step) {
        BelowFloor(q, r.qty, m.step);
      }
    }
  }

  predicate ReducesTooLittle(m: Market, refPx: real, most: real)
    requires refPx != 0.0
  {
    FloorToStep(most, m.step) <= 0.0 || FloorToStep(most, m.step) < MinSize(m, refPx)
  }

  lemma ShrinksUpto(legs: Legs, side: Side, q: real)
    requires q > 0.0
    ensures Shrinks(legs, side, q) <==> MaxReduce(legs, side).Upto? && q <= MaxReduce(legs, side).qty
  {
  }

  /** The reason where no size may be quoted: what stands in its way first. */
  ghost function SizeReason(c: QuoteConfig, m: Market, legs: Legs, side: Side, refPx: real): Reason
    requires refPx != 0.0
  {
    if CannotReduce(m, legs, side, refPx) then PositionReduceOnly
    else if CapsBind(c, m, legs, side, refPx) then CapsReason(legs, side, refPx)
    else if c.clampToMinLot && LeastPastCaps(m, legs, side, refPx) then MinLotExceedsHeadroom
    else QuantityBelowMinimum
  }

  /** A size is refused for that reason, and a size given says which cap shrank it. */
  lemma SizeRefused(c: QuoteConfig, m: Market, legs: Legs, side: Side, refPx: real)
    requires m.step > 0.0 && refPx > 0.0 && OnStep(m.minQty, m.step)
    ensures var s := SizeOf(c, m, legs, side, refPx); var binds := CapsBind(c, m, legs, side, refPx);
      && (CannotReduce(m, legs, side, refPx) ==> s.NoSize?)
      && (s.NoSize? ==> s.reason == SizeReason(c, m, legs, side, refPx))
      && (s.Size? ==> s.binding == if binds then Some(CapsReason(legs, side, refPx)) else None)
  {
    hide FloorToStep, MinSize, CapOf, CapsReason, CapsBind, LeastPastCaps, CannotReduce, OnStep;
    CapIs(c, m, legs, side, refPx);
    ReduceIs(m, legs, side, refPx);
    MinSizeClears(m, refPx, MinSize(m, refPx));
    assert MaxReduce(legs, side).Free? <==> legs.aster == 0.0 && legs.hl == 0.0;
  }

  // ---------------------------------------------------------------- the reasons after a size

  /** What is said of a size, its hedge and its price: too small, no touch to measure from, too far, or too near. */
  ghost predicate GateSays(c: QuoteConfig, m: Market, legs: Legs, side: Side, depth: OrderBook, touch: OrderBook,
          touchIsBbo: bool, refPx: real, qty: real, px: real, r: Result)
    requires refPx != 0.0
  {
    if Times(qty, px) < m.minNotional then
      r == Rejected(if legs.reduceOnly then PositionReduceOnly
                    else if CapsBind(c, m, legs, side, refPx) then CapsReason(legs, side, refPx)
                    else QuantityBelowMinimum)
    else
      && ((forall t :: !TouchIs(depth, touch, touchIsBbo, side, Target(c, qty), m.maxStalenessMs, t))
            ==> r == Rejected(EffectiveTouchUnavailable))
      && forall t :: TouchIs(depth, touch, touchIsBbo, side, Target(c, qty), m.maxStalenessMs, t) ==>
           var away := Behind(side, t, px) * 10000.0;
           && (away > Times(c.maxDistanceBps, refPx) ==> r == Rejected(QuoteTooFar))
           && (away <= Times(c.maxDistanceBps, refPx) && away < Times(c.minTouchDistanceBps, refPx) ==>
                 r == Rejected(QuoteTooClose))
  }

  /** Every refusal on usable books with its reason: no size; a hedge, but no price; a price that a gate refuses. */
  lemma QuoteRefused(e: EdgeConfig, c: QuoteConfig, m: Market, legs: Legs, side: Side, depth: OrderBook,
          touch: OrderBook, touchIsBbo: bool, hl: OrderBook, qty: real, vwap: real)
    requires Configured(e, m) && Solid(hl.bids) && Solid(hl.asks) && Usable(m, touch, hl)
    ensures var r := DesiredQuote(e, c, m, legs, side, depth, touch, touchIsBbo, hl);
      var refPx := Touches(touch, hl) / 4.0; var bid, ask := touch.bids[0].px, touch.asks[0].px;
      && ((forall q :: !Allowed(c, m, legs, side, refPx, q)) ==> r == Rejected(SizeReason(c, m, legs, side, refPx)))
      && (LargestSize(c, m, legs, side, refPx, qty) && HedgesAt(c, hl, side, Target(c, qty), vwap) ==>
            && ((forall px :: !Quotable(side, px, bid, ask, vwap, refPx, m.tick, e)) ==>
                  r == Rejected(if side == Buy then NoProfitableBid else NoProfitableAsk))
            && forall px :: BestPrice(e, side, bid, ask, vwap, refPx, m.tick, px) ==>
                 GateSays(c, m, legs, side, depth, touch, touchIsBbo, refPx, qty, px, r))
  {
    hide SizeOf, PriceOf, Times, EffectiveTouch, FullVwap, Slippage, RefOf, Touches, Allowed, Quotable, OnStep,
         SlipsWithin, AverageIs, Gated, GateSays, CapsBind, CapsReason, SizeReason, Depth, BestPrice;
    RefIs(touch, hl);
    var refPx := RefOf(touch, hl);
    var size, levels := SizeOf(c, m, legs, side, refPx), HedgeLevels(hl, side);
    SizeBest(c, m, legs, side, refPx);
    SizeRefused(c, m, legs, side, refPx);
    if LargestSize(c, m, legs, side, refPx, qty) && HedgesAt(c, hl, side, Target(c, qty), vwap) {
      assert size.Size? && size.qty == qty;
      SizePositive(c, m, legs, side, refPx);
      TargetPositive(c, qty);
      AverageHere(levels, Target(c, qty));
      AverageOnce(levels, Target(c, qty), vwap);
      SlipsHere(levels, side, vwap, c.maxSlippageBps);
      HedgePays(levels, Target(c, qty), vwap);
      PriceHere(e, side, touch.bids[0].px, touch.asks[0].px, vwap, refPx, m.tick);
      forall px | BestPrice(e, side, touch.bids[0].px, touch.asks[0].px, vwap, refPx, m.tick, px)
        ensures GateSays(c, m, legs, side, depth, touch, touchIsBbo, refPx, qty, px,
                         DesiredQuote(e, c, m, legs, side, depth, touch, touchIsBbo, hl))
      {
        PriceSound(side, touch.bids[0].px, touch.asks[0].px, vwap, refPx, m.tick, e);
        GateIs(e, c, m, legs, side, depth, touch, touchIsBbo, size, px, vwap, refPx);
      }
    }
  }

  /** The price found is the best one; and where there is none, the reason is that there is no profit in any. */
  lemma PriceHere(e: EdgeConfig, side: Side, bid: real, ask: real, vwap: real, refPx: real, tick: real)
    requires tick > 0.0 && refPx > 0.0 && vwap > 0.0 && Loaded(e) && -1.0 < BpsToRate(e.makerFee) < 1.0
    ensures var p := PriceOf(side, bid, ask, vwap, refPx, tick, e);
      && (forall px :: BestPrice(e, side, bid, ask, vwap, refPx, tick, px) ==> p == Price(px))
      && ((forall px :: !Quotable(side, px, bid, ask, vwap, refPx, tick, e)) ==>
            p == NoPrice(if side == Buy then NoProfitableBid else NoProfitableAsk))
  {
    hide PriceOf, Quotable, MinAsk;
    SolvesHere(e, side, vwap, refPx);
    PriceBest(side, bid, ask, vwap, refPx, tick, e);
    PriceSound(side, bid, ask, vwap, refPx, tick, e);
    SideReason(e, side, bid, ask, vwap, refPx, tick);
  }

  lemma SideReason(e: EdgeConfig, side: Side, bid: real, ask: real, vwap: real, refPx: real, tick: real)
    ensures var p := PriceOf(side, bid, ask, vwap, refPx, tick, e);
      p.NoPrice? ==>
        p.reason == PostOnlyPriceInvalid || p.reason == if side == Buy then NoProfitableBid else NoProfitableAsk
  {
    hide FloorToStep, CeilToStep, MaxBid, MinAsk;
  }

  lemma GateIs(e: EdgeConfig, c: QuoteConfig, m: Market, legs: Legs, side: Side, depth: OrderBook, touch: OrderBook,
          touchIsBbo: bool, size: Size, px: real, vwap: real, refPx: real)
    requires refPx > 0.0 && size.Size? && NetEdge(side, px, vwap, refPx, e) >= e.minNetProfit
    requires size.binding == if CapsBind(c, m, legs, side, refPx) then Some(CapsReason(legs, side, refPx)) else None
    ensures var t := EffectiveTouch(depth, touch, touchIsBbo, side, Target(c, size.qty), m.maxStalenessMs);
      GateSays(c, m, legs, side, depth, touch, touchIsBbo, refPx, size.qty, px,
               Gated(e, c, m, legs, side, size, px, vwap, refPx, Target(c, size.qty), t))
  {
    hide EffectiveTouch, TouchIs, Distance, NetEdge, Times, CapsBind, CapsReason, Behind;
    TouchHere(depth, touch, touchIsBbo, side, Target(c, size.qty), m.maxStalenessMs);
    forall t ensures Distance(side, t, px, refPx) > c.maxDistanceBps
        <==> Behind(side, t, px) * 10000.0 > Times(c.maxDistanceBps, refPx)
    {
      DistanceIs(side, t, px, refPx, c.maxDistanceBps);
    }
    forall t ensures Distance(side, t, px, refPx) < c.minTouchDistanceBps
        <==> Behind(side, t, px) * 10000.0 < Times(c.minTouchDistanceBps, refPx)
    {
      DistanceIs(side, t, px, refPx, c.minTouchDistanceBps);
    }
  }
}

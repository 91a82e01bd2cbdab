/**
 The maker-taker's cash (SCREENER/src/report.rs): which trades fill its quote, at which price, how the fill is
 hedged, what it nets and what the result sums, said of the states, the trades and the fills.
 */
module XemmCash {
  import opened Common
  import opened Reals
  import opened Sums
  import opened Quotes
  import opened Collector
  import opened Report
  import opened Bookings

  // ---------------------------------------------------------------- what a fill is

  /** Cash of a fill before fees: a maker sale is bought back on the hedge, a maker purchase sold there. */
  function Gross(f: XemmFill): real {
    if f.buy then Times(f.qty, f.price) - Times(f.qty, f.hedgePrice)
    else Times(f.qty, f.hedgePrice) - Times(f.qty, f.price)
  }

  function Net(f: XemmFill): real { f.net }

  function NetOn(d: int): XemmFill -> real { (f: XemmFill) => if OnDay(f.t, d) then f.net else 0.0 }

  /** A fill's edge before fees, in bps of its reference price. */
  function EdgeOf(f: XemmFill): real {
    if f.reference == 0.0 then 0.0
    else Over(if f.buy then f.price - f.hedgePrice else f.hedgePrice - f.price, f.reference) * 10000.0
  }

  /** What a fill adds to the left leg: a buyer takes it from us when the left venue is the maker. */
  function SignedQty(sim: XemmSim): XemmFill -> real {
    (f: XemmFill) => if f.buy == (sim.maker == Left) then -f.qty else f.qty
  }

  function OwnBook(sim: XemmSim, s: State): Bbo { if sim.maker == Left then s.a else s.l }

  function OtherBook(sim: XemmSim, s: State): Bbo { if sim.maker == Left then s.l else s.a }

  /** Four times the reference price: both mids' touches together. */
  function Touches(s: State): real { s.a.bid + s.a.ask + s.l.bid + s.l.ask }

  /** What selling one unit at `price` and buying it back on the hedge nets after both fees; or the other way round. */
  function UnitNet(sim: XemmSim, s: State, buy: bool, price: real): real {
    if buy then Times(price, 1.0 - sim.feeMaker) - Times(OtherBook(sim, s).ask, 1.0 + sim.feeHedge)
    else Times(OtherBook(sim, s).bid, 1.0 - sim.feeHedge) - Times(price, 1.0 + sim.feeMaker)
  }

  /** A price the bot could quote from that state: no better than its own touch, netting the required bps. */
  predicate Quotable(sim: XemmSim, s: State, buy: bool, price: real) {
    && UnitNet(sim, s, buy, price) * 40000.0 >= Times(sim.required, Touches(s))
    && if buy then price >= OwnBook(sim, s).ask else price <= OwnBook(sim, s).bid
  }

  /** The quote is the most aggressive such price. */
  ghost predicate QuoteIs(sim: XemmSim, s: State, buy: bool, price: real) {
    Quotable(sim, s, buy, price) && forall p :: Quotable(sim, s, buy, p) ==> if buy then price <= p else p <= price
  }

  /** The hedge side holds the depth, and the quote lies within the bot's distance of its touch. */
  predicate Placed(sim: XemmSim, s: State, buy: bool, price: real) {
    var own, other := OwnBook(sim, s), OtherBook(sim, s);
    && (if buy then Holds(other.ask, other.askSize, sim.depth) else Holds(other.bid, other.bidSize, sim.depth))
    && (sim.distance.Some? ==>
          var away := RAbs(price - if buy then own.ask else own.bid) * 40000.0;
          Times(sim.distance.value.least, Touches(s)) <= away <= Times(sim.distance.value.most, Touches(s)))
  }

  /** The trade prints through the quote priced from the state in force a quote's age before it. */
  ghost predicate Hits(sim: XemmSim, s: State, x: Trade, price: real) {
    && TwoSided(s.a) && TwoSided(s.l) && QuoteIs(sim, s, x.buy, price) && Placed(sim, s, x.buy, price)
    && if x.buy then x.price > price else x.price < price
  }

  /** No fill within the cooldown before, and no position that this side would add to. */
  ghost predicate Quoting(sim: XemmSim, st: XemmState, x: Trade) {
    && x.venue == sim.maker && (st.fills == [] || x.t - st.fills[|st.fills| - 1].t >= sim.cooldown)
    && if x.buy == (sim.maker == Left) then st.position >= 0.0 else st.position <= 0.0
  }

  /** The hedge's book: the state in force after notice and order latency. */
  ghost predicate HedgedAt(sim: XemmSim, states: seq<State>, t: int, h: int) {
    InForce(states, h, t + sim.notice + sim.hedgeLag) && TwoSided(OtherBook(sim, states[h]))
  }

  /** The fill: at the quote, hedged at that book's taken side, a clip when flat and else at most what flattens. */
  ghost predicate Fill(sim: XemmSim, states: seq<State>, position: real, s: State, x: Trade, price: real, h: int,
          f: XemmFill)
    requires HedgedAt(sim, states, x.t, h)
  {
    var other := OtherBook(sim, states[h]);
    && f.t == x.t && f.buy == x.buy && f.price == price && f.reference * 4.0 == Touches(s)
    && f.hedgePrice == (if x.buy then other.ask else other.bid)
    && (if position != 0.0 then f.qty == RMin(x.size, RAbs(position))
        else
          && f.qty <= x.size && Times(f.qty, f.reference) <= sim.clip
          && (f.qty == x.size || Times(f.qty, f.reference) == sim.clip))
    && f.net == Gross(f) - Times(Times(f.qty, f.price), sim.feeMaker) - Times(Times(f.qty, f.hedgePrice), sim.feeHedge)
  }

  // ---------------------------------------------------------------- the quote

  lemma SolveUp(hedge: real, required: real, fee: real, p: real)
    requires fee < 1.0
    ensures p >= Over(hedge + required, 1.0 - fee) <==> Times(p, 1.0 - fee) - hedge >= required
  {
    hide Times, Over;
    OverBounds(hedge + required, 1.0 - fee, p);
  }

  lemma SolveDown(hedge: real, required: real, fee: real, p: real)
    requires fee > -1.0
    ensures p <= Over(hedge - required, 1.0 + fee) <==> hedge - Times(p, 1.0 + fee) >= required
  {
    hide Times, Over;
    OverBounds(hedge - required, 1.0 + fee, p);
  }

  lemma RequiredIs(required: real, s: State)
    ensures BpsOf(required, Reference(s)) * 40000.0 == Times(required, Touches(s))
  {
  }

  /** A price is quotable exactly from the bot's own on. */
  lemma QuotePriceIs(sim: XemmSim, s: State, buy: bool, p: real)
    requires -1.0 < sim.feeMaker < 1.0
    ensures Quotable(sim, s, buy, p) <==> if buy then p >= QuotePrice(sim, s, buy) else p <= QuotePrice(sim, s, buy)
  {
    hide Times, Over, BpsOf, Reference, Touches;
    var required := BpsOf(sim.required, Reference(s));
    RequiredIs(sim.required, s);
    var other := OtherBook(sim, s);
    if buy {
      SolveUp(Times(other.ask, 1.0 + sim.feeHedge), required, sim.feeMaker, p);
    } else {
      SolveDown(Times(other.bid, 1.0 - sim.feeHedge), required, sim.feeMaker, p);
    }
  }

  lemma QuoteIsPrice(sim: XemmSim, s: State, buy: bool, price: real)
    requires -1.0 < sim.feeMaker < 1.0
    ensures QuoteIs(sim, s, buy, price) <==> price == QuotePrice(sim, s, buy)
  {
    hide Quotable, QuotePrice;
    var quote := QuotePrice(sim, s, buy);
    forall p ensures Quotable(sim, s, buy, p) <==> if buy then p >= quote else p <= quote {
      QuotePriceIs(sim, s, buy, p);
    }
    assert Quotable(sim, s, buy, quote);
  }

  // ---------------------------------------------------------------- one trade

  /** A trade of the maker venue that hits the quote while the bot quotes that side. */
  ghost predicate Moment(sim: XemmSim, states: seq<State>, st: XemmState, x: Trade, q: int, price: real) {
    Quoting(sim, st, x) && InForce(states, q, x.t - sim.quoteAge) && Hits(sim, states[q], x, price)
  }

  ghost predicate Unhedged(sim: XemmSim, states: seq<State>, t: int) {
    forall h :: !HedgedAt(sim, states, t, h)
  }

  /** One fill more, and nothing else but the sums. */
  ghost predicate Filled(sim: XemmSim, states: seq<State>, st: XemmState, s: State, x: Trade, price: real,
          r: XemmState)
  {
    && r.unresolved == st.unresolved && |r.fills| == |st.fills| + 1 && r.fills[..|st.fills|] == st.fills
    && forall h :: HedgedAt(sim, states, x.t, h) ==> Fill(sim, states, st.position, s, x, price, h, r.fills[|st.fills|])
  }

  /** What one trade makes of a run: a fill, a fill left out for an unknown hedge book, or nothing. */
  ghost predicate StepIs(sim: XemmSim, states: seq<State>, st: XemmState, x: Trade, r: XemmState) {
    && (forall q, price :: Moment(sim, states, st, x, q, price) ==>
          if Unhedged(sim, states, x.t) then r == st.(unresolved := st.unresolved + 1)
          else Filled(sim, states, st, states[q], x, price, r))
    && ((forall q, price :: !Moment(sim, states, st, x, q, price)) ==> r == st)
  }

  ghost predicate Tallied(sim: XemmSim, st: XemmState) {
    && st.position == Sum(st.fills, SignedQty(sim)) && st.pnl == Sum(st.fills, Net)
       && st.edgeSum == Sum(st.fills, EdgeOf)
    && st.lastFill == (if st.fills == [] then None else Some(st.fills[|st.fills| - 1].t))
    && (forall d :: DayNet(st.byDay, d) == Sum(st.fills, NetOn(d))) && AllDays(st.byDay) == st.pnl
  }

  lemma HedgedIs(sim: XemmSim, states: seq<State>, t: int)
    ensures var at := t + sim.notice + sim.hedgeLag;
      var book := if sim.maker == Left then RightAt(states, at) else LeftAt(states, at);
      && (Unhedged(sim, states, t) <==> book.None?)
      && (forall h :: HedgedAt(sim, states, t, h) ==> book == Some(OtherBook(sim, states[h])))
  {
    hide InForce, StateAt;
    var at := t + sim.notice + sim.hedgeLag;
    var i := StateAtIs(states, at);
    StateAtOnly(states, at);
    if (if sim.maker == Left then RightAt(states, at) else LeftAt(states, at)).Some? {
      assert HedgedAt(sim, states, t, i);
    }
  }

  /** A state and a trade hit by the quote of the bot: the model's own test. */
  lemma HitsIs(sim: XemmSim, s: State, x: Trade)
    requires -1.0 < sim.feeMaker < 1.0
    ensures var price := QuotePrice(sim, s, x.buy);
      && (Fills(sim, s, x) <==> Hits(sim, s, x, price)) && (forall p :: Hits(sim, s, x, p) ==> p == price)
  {
    hide QuotePrice, QuoteIs, Times, InDistance, Placed;
    forall p ensures QuoteIs(sim, s, x.buy, p) <==> p == QuotePrice(sim, s, x.buy) { QuoteIsPrice(sim, s, x.buy, p); }
    if TwoSided(s.a) && TwoSided(s.l) { PlacedIs(sim, s, x.buy, QuotePrice(sim, s, x.buy)); }
  }

  lemma PlacedIs(sim: XemmSim, s: State, buy: bool, price: real)
    requires TwoSided(s.a) && TwoSided(s.l)
    ensures Placed(sim, s, buy, price) <==>
      && (if buy then Deep(HedgeBook(sim, s).ask, HedgeBook(sim, s).askSize, sim.depth)
          else Deep(HedgeBook(sim, s).bid, HedgeBook(sim, s).bidSize, sim.depth))
      && InDistance(sim, s, buy, price)
  {
    if sim.distance.Some? {
      var away := RAbs(price - if buy then OwnBook(sim, s).ask else OwnBook(sim, s).bid);
      DistanceIs(sim.distance.value.least, away, Touches(s));
      DistanceIs(sim.distance.value.most, away, Touches(s));
    }
  }

  lemma DistanceIs(bps: real, away: real, touches: real)
    requires touches > 0.0
    ensures bps <= away / (touches / 4.0) * 10000.0 <==> Times(bps, touches) <= away * 40000.0
    ensures away / (touches / 4.0) * 10000.0 <= bps <==> away * 40000.0 <= Times(bps, touches)
  {
    var d := away / (touches / 4.0) * 10000.0;
    assert d * touches == away * 40000.0;
    TimesOrders(bps, d, touches);
    TimesOrders(d, bps, touches);
  }

  /** What is booked is the quote's fill at those books. */
  lemma FilledIs(sim: XemmSim, states: seq<State>, st: XemmState, s: State, x: Trade, h: int)
    requires -1.0 < sim.feeMaker < 1.0 && Fills(sim, s, x) && HedgedAt(sim, states, x.t, h)
    ensures var r := FillQuote(sim, states, st, s, x);
      && Filled(sim, states, st, s, x, QuotePrice(sim, s, x.buy), r)
      && r == Hedged(sim, st, x, QuotePrice(sim, s, x.buy), r.fills[|st.fills|].hedgePrice, Reference(s))
  {
    hide AddDay, Times, Over, InForce, QuotePrice, StateAt;
    HedgedIs(sim, states, x.t);
    var r := FillQuote(sim, states, st, s, x);
    var f := r.fills[|st.fills|];
    forall h' | HedgedAt(sim, states, x.t, h')
      ensures Fill(sim, states, st.position, s, x, QuotePrice(sim, s, x.buy), h', f)
    {
      NetIs(f.qty, f.price, f.hedgePrice);
      if st.position == 0.0 { ClipIs(x.size, sim.clip, Reference(s)); }
    }
  }

  lemma NetIs(qty: real, price: real, hedge: real)
    ensures Times(qty, price - hedge) == Times(qty, price) - Times(qty, hedge)
    ensures Times(qty, hedge - price) == Times(qty, hedge) - Times(qty, price)
  {
    TimesSum(price, hedge, qty);
    TimesSum(hedge, price, qty);
  }

  lemma ClipIs(size: real, clip: real, reference: real)
    requires reference > 0.0
    ensures var qty := RMin(size, Over(clip, reference));
      qty <= size && Times(qty, reference) <= clip && (qty == size || Times(qty, reference) == clip)
  {
    hide Times, Over;
    OverBounds(clip, reference, RMin(size, Over(clip, reference)));
    Divided(clip, reference);
  }

  /** A fill added keeps the sums. */
  lemma HedgedTallies(sim: XemmSim, st: XemmState, x: Trade, price: real, hedgePrice: real, reference: real)
    requires Tallied(sim, st) && reference != 0.0
    ensures Tallied(sim, Hedged(sim, st, x, price, hedgePrice, reference))
  {
    hide AddDay, Times, Over, Sum, DayNet;
    var r := Hedged(sim, st, x, price, hedgePrice, reference);
    var f := r.fills[|st.fills|];
    SumNext(st.fills, f, SignedQty(sim));
    SumNext(st.fills, f, Net);
    SumNext(st.fills, f, EdgeOf);
    AddDayIs(st.byDay, x.t, f.net);
    AddDayTotals(st.byDay, x.t, f.net);
    forall d ensures DayNet(r.byDay, d) == Sum(r.fills, NetOn(d)) { SumNext(st.fills, f, NetOn(d)); }
    SignTimes(f.qty);
  }

  lemma SignTimes(qty: real)
    ensures Times(-1.0, qty) == -qty && Times(1.0, qty) == qty
  {
  }

  /** The bot's side rule: quoting a side only while it does not add to the position. */
  lemma QuotingIs(sim: XemmSim, st: XemmState, x: Trade)
    requires Tallied(sim, st)
    ensures Quoting(sim, st, x) <==> x.venue == sim.maker && !NotQuoted(sim, st, x)
  {
  }

  lemma XemmStepIs(sim: XemmSim, states: seq<State>, st: XemmState, x: Trade)
    requires -1.0 < sim.feeMaker < 1.0 && Tallied(sim, st)
    ensures StepIs(sim, states, st, x, XemmStep(sim, states, st, x)) && Tallied(sim, XemmStep(sim, states, st, x))
  {
    hide Times, Over, Tallied, Filled, HedgedAt, Fill, QuotePrice, Hits, Fills, Hedged, Quoting, NotQuoted, StateAt,
      InForce;
    QuotingIs(sim, st, x);
    var at := x.t - sim.quoteAge;
    var i := StateAtIs(states, at);
    StateAtOnly(states, at);
    if StateAt(states, at).Some? {
      var s := states[i];
      HitsIs(sim, s, x);
      HedgedIs(sim, states, x.t);
      if Quoting(sim, st, x) && Fills(sim, s, x) {
        assert Moment(sim, states, st, x, i, QuotePrice(sim, s, x.buy));
        if Unhedged(sim, states, x.t) {
          UnresolvedTallies(sim, st);
        } else {
          var h :| HedgedAt(sim, states, x.t, h);
          FilledIs(sim, states, st, s, x, h);
          var r := FillQuote(sim, states, st, s, x);
          FillsReference(sim, s, x);
          OneMore(sim, states, st, s, x, QuotePrice(sim, s, x.buy), r);
          HedgedTallies(sim, st, x, QuotePrice(sim, s, x.buy), r.fills[|st.fills|].hedgePrice, Reference(s));
        }
      }
    }
  }

  lemma OneMore(sim: XemmSim, states: seq<State>, st: XemmState, s: State, x: Trade, price: real, r: XemmState)
    requires Filled(sim, states, st, s, x, price, r)
    ensures |r.fills| == |st.fills| + 1
  {
  }

  lemma FillsReference(sim: XemmSim, s: State, x: Trade)
    requires -1.0 < sim.feeMaker < 1.0 && Fills(sim, s, x)
    ensures Reference(s) > 0.0
  {
  }

  lemma UnresolvedTallies(sim: XemmSim, st: XemmState)
    requires Tallied(sim, st)
    ensures Tallied(sim, st.(unresolved := st.unresolved + 1))
  {
  }

  // ---------------------------------------------------------------- a run

  /** Every run: the sums are those of its fills, and each trade did what the books around it say. */
  lemma {:induction false} XemmRunIs(sim: XemmSim, states: seq<State>, trades: seq<Trade>)
    requires -1.0 < sim.feeMaker < 1.0
    ensures Tallied(sim, XemmRun(sim, states, trades))
    ensures trades != [] ==>
      var st := XemmRun(sim, states, trades[..|trades| - 1]);
      StepIs(sim, states, st, trades[|trades| - 1], XemmRun(sim, states, trades))
  {
    hide XemmStep, Tallied, StepIs;
    if trades == [] {
      StartTallied(sim);
    } else {
      XemmRunIs(sim, states, trades[..|trades| - 1]);
      XemmStepIs(sim, states, XemmRun(sim, states, trades[..|trades| - 1]), trades[|trades| - 1]);
    }
  }

  lemma StartTallied(sim: XemmSim)
    ensures Tallied(sim, XEMM_START)
  {
    NoDays();
  }

  /** Every fill of a run: the trade that made it, the state it was quoted from and the one it was hedged at. */
  lemma {:induction false} EveryFill(sim: XemmSim, states: seq<State>, trades: seq<Trade>, k: nat)
      returns (i: nat, q: int, h: int)
    requires -1.0 < sim.feeMaker < 1.0 && k < |XemmRun(sim, states, trades).fills|
    ensures i < |trades| && InForce(states, q, trades[i].t - sim.quoteAge) && HedgedAt(sim, states, trades[i].t, h)
    ensures var st, f := XemmRun(sim, states, trades[..i]), XemmRun(sim, states, trades).fills[k];
      && Moment(sim, states, st, trades[i], q, f.price)
      && Fill(sim, states, st.position, states[q], trades[i], f.price, h, f)
  {
    hide XemmRun, Hits, Quoting, Fill, HedgedAt, Tallied, XemmStep, InForce;
    if trades == [] { NoFills(sim, states); }
    XemmRunIs(sim, states, trades);
    var init, x := trades[..|trades| - 1], trades[|trades| - 1];
    var st, r := XemmRun(sim, states, init), XemmRun(sim, states, trades);
    if k < |st.fills| {
      assert r.fills[k] == st.fills[k];
      i, q, h := EveryFill(sim, states, init, k);
      assert init[..i] == trades[..i];
    } else {
      var price;
      q, price :| Moment(sim, states, st, x, q, price);
      i := |init|;
      h :| HedgedAt(sim, states, x.t, h);
      PriceOf(sim, states, st, x, q, price, h, r.fills[k]);
    }
  }

  lemma PriceOf(sim: XemmSim, states: seq<State>, st: XemmState, x: Trade, q: int, price: real, h: int, f: XemmFill)
    requires Moment(sim, states, st, x, q, price) && HedgedAt(sim, states, x.t, h)
    requires Fill(sim, states, st.position, states[q], x, price, h, f)
    ensures f.price == price
  {
    hide Hits, InForce, HedgedAt;
  }

  lemma NoFills(sim: XemmSim, states: seq<State>)
    requires -1.0 < sim.feeMaker < 1.0
    ensures XemmRun(sim, states, []).fills == []
  {
  }

  /** The result: its profit is the fills' less the closing cost, day by day and together, and its edge is theirs. */
  lemma XemmResultIs(sim: XemmSim, states: seq<State>, trades: seq<Trade>) returns (cost: real)
    requires -1.0 < sim.feeMaker < 1.0 && sim.clip != 0.0
    ensures var r := XemmResultOf(sim, states, XemmRun(sim, states, trades));
      && r.fills == XemmRun(sim, states, trades).fills && r.position == Sum(r.fills, SignedQty(sim))
      && r.pnl == Sum(r.fills, Net) - cost && AllDays(r.byDay) == r.pnl
      && CostIs(r.position, states, sim.closeBasis, cost) && ClipsAre(r.position, states, sim.clip, r.clips)
      && (forall i, d :: LastKnown(states, i, true) ==>
            DayNet(r.byDay, d) == Sum(r.fills, NetOn(d)) - if OnDay(states[i].t, d) then cost else 0.0)
      && Times(r.edgeBps, |r.fills| as real) == Sum(r.fills, EdgeOf)
  {
    hide Times, Over, CostIs, ClipsAre, LastKnown, AllDays, DayNet, OnDay, CloseOut, XemmRun;
    XemmRunIs(sim, states, trades);
    var st := XemmRun(sim, states, trades);
    cost := CloseOut(st.position, states, sim.closeBasis, sim.clip, st.byDay).cost;
    CloseOutIs(st.position, states, sim.closeBasis, sim.clip, st.byDay);
    if st.fills == [] {
      FlatCosts(states, sim.closeBasis, sim.clip, st.byDay);
    } else {
      FilledSaw(sim, states, trades);
    }
    MeanTimes(st.edgeSum, |st.fills|);
  }

  lemma FilledSaw(sim: XemmSim, states: seq<State>, trades: seq<Trade>)
    requires -1.0 < sim.feeMaker < 1.0 && XemmRun(sim, states, trades).fills != []
    ensures !NoneKnown(states, true)
  {
    hide XemmRun, QuoteIs, Placed;
    var i, q, h := EveryFill(sim, states, trades, 0);
  }

  /** With a position, a fill brings it nearer to flat and never past it. */
  lemma FillsFlatten(sim: XemmSim, states: seq<State>, st: XemmState, s: State, x: Trade, price: real, h: int,
          f: XemmFill)
    requires Quoting(sim, st, x) && HedgedAt(sim, states, x.t, h) && Fill(sim, states, st.position, s, x, price, h, f)
    requires st.position != 0.0 && x.size >= 0.0
    ensures var after := st.position + SignedQty(sim)(f);
      RAbs(after) <= RAbs(st.position) && (st.position > 0.0 ==> after >= 0.0) && (st.position < 0.0 ==> after <= 0.0)
  {
    hide Gross;
  }
}

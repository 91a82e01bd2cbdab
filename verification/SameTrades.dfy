/**
 The replay theorems: on the lines of one run, the gated taker and the maker-taker simulations take
 the same fills, meet the same unknown books and end with the same position and results as on every
 state and trade the run saw.
 */
module SameTrades {
  import opened Common
  import opened Reals
  import opened Quotes
  import opened Gates
  import opened Collector
  import opened Report
  import opened History
  import opened Replay
  import opened Moments

  // ---------------------------------------------------------------- what the settings must not ask for

  /** The report asks the taker for no more than was recorded (`check`, `check_latency`). */
  predicate TakerCovered(rec: Recording, sim: TakerSim) {
    && sim.depth == rec.depth && sim.span == rec.span && sim.percentile >= rec.percentile && sim.required >= rec.floor
    && 0 <= sim.lagA <= 2000 && 0 <= sim.lagL <= 2000
  }

  predicate XemmCovered(rec: Recording, sim: XemmSim) {
    && sim.depth == rec.depth && sim.required >= rec.xemmMinBps
    && 1 <= sim.quoteAge <= 1000 && 0 <= sim.notice && 0 <= sim.hedgeLag && sim.notice + sim.hedgeLag <= 2000
    && 0.0 <= sim.feeMaker < 1.0 && 0.0 <= sim.feeHedge
  }

  /** A history file's windows come in order and none starts after the run's first window. */
  ghost predicate Before(base: seq<Window>, now: int) {
    SortedBy(base, StartOf) && forall w :: w in base ==> w.start <= WindowOf(now)
  }

  ghost predicate PositivePrices(events: seq<Event>) {
    forall i :: 0 <= i < |events| && events[i].TradeEvent? ==> events[i].price > 0.0
  }

  // ---------------------------------------------------------------- lookups agree

  ghost predicate SamePrices(x: Option<Bbo>, y: Option<Bbo>) {
    x.Some? == y.Some? && (x.Some? ==> x.value.bid == y.value.bid && x.value.ask == y.value.ask)
  }

  /** Where the history is covered, the recorded states answer a lookup as the full ones do. */
  lemma LookupsAgree(h: seq<Entry>, x: int, lo: int, hi: int, depth: real)
    requires Covered(h, lo, hi) && lo <= x <= hi
    ensures SamePrices(LeftAt(Kept(h, depth), x), LeftAt(StatesOf(h), x))
    ensures SamePrices(RightAt(Kept(h, depth), x), RightAt(StatesOf(h), x))
    ensures var s, r := StateAt(StatesOf(h), x), StateAt(Kept(h, depth), x);
      r == if s.Some? then Some(Loaded(s.value, depth)) else None
  {
    KeptAt(h, x, depth);
    FullAt(h, x);
  }

  lemma {:induction false} KeptPrefix(h: seq<Entry>, n: nat, depth: real)
    requires n <= |h|
    ensures |Kept(h[..n], depth)| <= |Kept(h, depth)| && Kept(h, depth)[..|Kept(h[..n], depth)|] == Kept(h[..n], depth)
    decreases |h|
  {
    if n == |h| {
      assert h[..n] == h;
    } else {
      KeptPrefix(h[..|h| - 1], n, depth);
      assert h[..|h| - 1][..n] == h[..n];
    }
  }

  // ---------------------------------------------------------------- the taker

  /** A state the taker would trade on reaches the recorder's trigger. */
  lemma PassesFires(rec: Recording, sim: TakerSim, windows: seq<Window>, e: Entry)
    requires TakerCovered(rec, sim)
    requires var best := BestEdge(e.a, e.l, sim.depth);
      best.Some? && Passes(sim, best.value.bps, Threshold(sim, windows, WindowOf(e.t)))
    ensures Fires(rec, windows, e)
  {
    hide Level, BestEdge, InSpan, Total, WindowOf;
    var w := WindowOf(e.t);
    var total := Total(InSpan(windows, w - rec.span, w));
    assert Level(total, sim.required, sim.percentile, sim.minSamples).Some?;
    GateDominance(total, rec.floor, sim.required, rec.percentile, sim.percentile, rec.minSamples, sim.minSamples);
  }

  lemma TakeAgrees(sim: TakerSim, h: seq<Entry>, depth: real, st: TakerState, s: State, buyLeft: bool, edge: real)
    requires Known(s.a) && 0 <= sim.lagA <= TAIL_MS && 0 <= sim.lagL <= TAIL_MS && Covered(h, s.t, s.t + TAIL_MS)
    requires Known(Loaded(s, depth).a)
    ensures Take(sim, Kept(h, depth), st, Loaded(s, depth), buyLeft, edge)
      == Take(sim, StatesOf(h), st, s, buyLeft, edge)
  {
    hide Executed, OverCap, Mid, Kept, StatesOf, LeftAt, RightAt, Covered, Loaded, Known;
    LoadedPrices(s, depth);
    LookupsAgree(h, s.t + sim.lagA, s.t, s.t + TAIL_MS, depth);
    LookupsAgree(h, s.t + sim.lagL, s.t, s.t + TAIL_MS, depth);
  }

  /** One state: the same step if it was recorded, no step at all if it was not. */
  lemma TakerStepAgrees(rec: Recording, sim: TakerSim, h: seq<Entry>, windows: seq<Window>, hot: Option<int>, i: nat,
          st: TakerState)
    requires TakerCovered(rec, sim) && rec.depth > 0.0 && i < |h| && TriggerMoments(rec, hot, h, windows)
    ensures var s, threshold := StateOf(h[i]), Threshold(sim, windows, WindowOf(h[i].t));
      TakerStep(sim, StatesOf(h), threshold, st, s)
      == if h[i].written then TakerStep(sim, Kept(h, rec.depth), threshold, st, Loaded(s, rec.depth)) else st
  {
    hide Level, Threshold, BestEdge, Take, Loaded, Fires, Kept, StatesOf, Covered, CoolingDown;
    var e, s, threshold := h[i], StateOf(h[i]), Threshold(sim, windows, WindowOf(h[i].t));
    FlagsAnswerAsSizes(s, rec.depth);
    LoadedTime(s, rec.depth);
    var best := BestEdge(s.a, s.l, sim.depth);
    if best.Some? && Passes(sim, best.value.bps, threshold) {
      PassesFires(rec, sim, windows, e);
      assert e.written && Covered(h, e.t, e.t + TAIL_MS);
      TakeAgrees(sim, h, rec.depth, st, s, best.value.buyLeft, best.value.bps);
    }
  }

  lemma {:induction false} TakerRunAgrees(rec: Recording, sim: TakerSim, h: seq<Entry>, windows: seq<Window>,
          hot: Option<int>, n: nat)
    requires TakerCovered(rec, sim) && rec.depth > 0.0 && n <= |h| && TriggerMoments(rec, hot, h, windows)
    ensures |Kept(h[..n], rec.depth)| <= |Kept(h, rec.depth)|
    ensures TakerRun(sim, Kept(h, rec.depth), windows, |Kept(h[..n], rec.depth)|)
      == TakerRun(sim, StatesOf(h), windows, n)
  {
    hide TakerStep, Threshold, Loaded, TriggerMoments, StatesOf, WindowOf;
    KeptPrefix(h, n, rec.depth);
    if n > 0 {
      TakerRunAgrees(rec, sim, h, windows, hot, n - 1);
      var e, k := h[n - 1], Kept(h[..n - 1], rec.depth);
      var st := TakerRun(sim, StatesOf(h), windows, n - 1);
      TakerStepAgrees(rec, sim, h, windows, hot, n - 1, st);
      assert h[..n][..n - 1] == h[..n - 1];
      StateHere(h, n - 1);
      if e.written {
        assert Kept(h, rec.depth)[|k|] == Kept(h, rec.depth)[..|k| + 1][|k|] == Loaded(StateOf(e), rec.depth);
        LoadedTime(StateOf(e), rec.depth);
      } else {
        assert Kept(h[..n], rec.depth) == k + [] == k;
      }
    }
  }

  lemma StateHere(h: seq<Entry>, i: nat)
    requires i < |h|
    ensures StatesOf(h)[i] == StateOf(h[i])
  {
  }

  // ---------------------------------------------------------------- the maker-taker

  lemma QuotientUp(n: real, fee: real)
    requires n >= 0.0 && 0.0 <= fee < 1.0
    ensures n / (1.0 - fee) >= n
  {
    var q := n / (1.0 - fee);
    assert q * (1.0 - fee) == n;
    if q < 0.0 { ProductGrows(q, 0.0, 1.0 - fee); }
    ProductGrows(0.0, q, fee);
  }

  lemma QuotientDown(n: real, fee: real)
    requires 0.0 <= fee
    ensures n >= 0.0 ==> n / (1.0 + fee) <= n
    ensures n < 0.0 ==> n / (1.0 + fee) < 0.0
  {
    var q := n / (1.0 + fee);
    assert q * (1.0 + fee) == n;
    if q < 0.0 { ProductGrows(q, 0.0, 1.0 + fee); } else { ProductGrows(0.0, q, 1.0 + fee); ProductGrows(0.0, q, fee); }
  }

  /** The price solver never quotes better than the required edge allows, at any fee. */
  lemma BuyBound(ask: real, fee: real, hedgeFee: real, required: real, least: real, price: real)
    requires ask > 0.0 && 0.0 <= fee < 1.0 && 0.0 <= hedgeFee && required >= least && price > 0.0
    requires price > AskAtEdge(ask, hedgeFee, required, fee)
    ensures price > ask + least
  {
    var n := ask * (1.0 + hedgeFee) + required;
    ProductGrows(0.0, ask, hedgeFee);
    assert n >= ask + least;
    if n >= 0.0 { QuotientUp(n, fee); }
  }

  lemma SellBound(bid: real, fee: real, hedgeFee: real, required: real, least: real, price: real)
    requires bid > 0.0 && 0.0 <= fee < 1.0 && 0.0 <= hedgeFee && required >= least && price > 0.0
    requires price < BidAtEdge(bid, hedgeFee, required, fee)
    ensures price < bid - least
  {
    var n := bid * (1.0 - hedgeFee) - required;
    ProductGrows(0.0, bid, hedgeFee);
    assert n <= bid - least;
    QuotientDown(n, fee);
  }

  /** A trade through the quote is through the touch and through the hedge by the least edge. */
  lemma PriceBound(sim: XemmSim, s: State, x: Trade, least: real)
    requires 0.0 <= sim.feeMaker < 1.0 && 0.0 <= sim.feeHedge && x.price > 0.0 && Known(s.a) && Known(s.l)
    requires BpsOf(sim.required, Reference(s)) >= least
    requires if x.buy then x.price > QuotePrice(sim, s, true) else x.price < QuotePrice(sim, s, false)
    ensures if x.buy then x.price > MakerBook(sim, s).ask && x.price > HedgeBook(sim, s).ask + least
            else x.price < MakerBook(sim, s).bid && x.price < HedgeBook(sim, s).bid - least
  {
    hide Reference, BpsOf, AskAtEdge, BidAtEdge;
    var hedge, required := HedgeBook(sim, s), BpsOf(sim.required, Reference(s));
    if x.buy {
      BuyBound(hedge.ask, sim.feeMaker, sim.feeHedge, required, least, x.price);
    } else {
      SellBound(hedge.bid, sim.feeMaker, sim.feeHedge, required, least, x.price);
    }
  }

  lemma BpsGrow(x: real, y: real, reference: real)
    requires x <= y && reference >= 0.0
    ensures BpsOf(x, reference) <= BpsOf(y, reference)
  {
    ProductGrows(x / 10000.0, y / 10000.0, reference);
  }

  /** A trade that fills a quote could fill it as the recorder asks. */
  lemma FillsCouldFill(rec: Recording, sim: XemmSim, s: State, x: Trade)
    requires XemmCovered(rec, sim) && x.venue == sim.maker && x.price > 0.0 && Fills(sim, s, x)
    ensures CouldFill(x.venue, x.buy, x.price, s.a, s.l, rec.xemmMinBps, rec.depth)
  {
    assert Reference(s) > 0.0;
    BpsGrow(rec.xemmMinBps, sim.required, Reference(s));
    assert Known(s.a) && Known(s.l);
    hide Deep, InDistance, QuotePrice, Known, BpsOf, Mid;
    PriceBound(sim, s, x, BpsOf(rec.xemmMinBps, Reference(s)));
  }

  /** Prices and depth flags price and fill a quote as the live books did. */
  lemma LoadedFills(sim: XemmSim, s: State, x: Trade)
    requires 0.0 <= sim.feeMaker < 1.0 && sim.depth > 0.0
    ensures Fills(sim, Loaded(s, sim.depth), x) == Fills(sim, s, x)
    ensures Reference(Loaded(s, sim.depth)) == Reference(s)
    ensures QuotePrice(sim, Loaded(s, sim.depth), x.buy) == QuotePrice(sim, s, x.buy)
  {
    hide Loaded, Deep;
    var r := Loaded(s, sim.depth);
    LoadedPrices(s, sim.depth);
    SameQuote(sim, r, s, x.buy);
    assert Known(r.a) == Known(s.a) && Known(r.l) == Known(s.l);
    if Known(s.a) && Known(s.l) {
      SameDistance(sim, r, s, x.buy, QuotePrice(sim, s, x.buy));
      SameDepth(sim, s);
      hide QuotePrice, InDistance, Reference;
      assert Fills(sim, r, x) == Fills(sim, s, x);
    }
  }

  ghost predicate SameBooks(r: State, s: State) {
    && r.t == s.t && r.a.bid == s.a.bid && r.a.ask == s.a.ask && r.l.bid == s.l.bid && r.l.ask == s.l.ask
    && Mid(r.a) == Mid(s.a) && Mid(r.l) == Mid(s.l)
  }

  lemma SameQuote(sim: XemmSim, r: State, s: State, buy: bool)
    requires 0.0 <= sim.feeMaker < 1.0 && SameBooks(r, s)
    ensures Reference(r) == Reference(s) && QuotePrice(sim, r, buy) == QuotePrice(sim, s, buy)
  {
    hide Mid, AskAtEdge, BidAtEdge, BpsOf;
  }

  lemma SameDistance(sim: XemmSim, r: State, s: State, buy: bool, price: real)
    requires SameBooks(r, s) && Reference(r) == Reference(s) != 0.0
    ensures InDistance(sim, r, buy, price) == InDistance(sim, s, buy, price)
  {
    hide Mid, Reference;
  }

  lemma SameDepth(sim: XemmSim, s: State)
    requires sim.depth > 0.0 && Known(s.a) && Known(s.l)
    ensures var r, hedge := HedgeBook(sim, Loaded(s, sim.depth)), HedgeBook(sim, s);
      && Deep(r.ask, r.askSize, sim.depth) == Deep(hedge.ask, hedge.askSize, sim.depth)
      && Deep(r.bid, r.bidSize, sim.depth) == Deep(hedge.bid, hedge.bidSize, sim.depth)
  {
    hide Loaded, Deep, BestEdge;
    FlagsAnswerAsSizes(s, sim.depth);
  }

  lemma LoadedPrices(s: State, depth: real)
    ensures SameBooks(Loaded(s, depth), s)
  {
  }

  lemma FillQuoteAgrees(sim: XemmSim, h: seq<Entry>, st: XemmState, s: State, x: Trade)
    requires 0.0 <= sim.feeMaker < 1.0 && sim.depth > 0.0 && Fills(sim, s, x) && Fills(sim, Loaded(s, sim.depth), x)
    requires 0 <= sim.notice && 0 <= sim.hedgeLag && sim.notice + sim.hedgeLag <= TAIL_MS
    requires Covered(h, x.t - PREROLL_MS, x.t + TAIL_MS)
    ensures FillQuote(sim, Kept(h, sim.depth), st, Loaded(s, sim.depth), x) == FillQuote(sim, StatesOf(h), st, s, x)
  {
    hide Loaded, Kept, StatesOf, LeftAt, RightAt, Covered, Fills, QuotePrice, Reference, Hedged;
    LoadedFills(sim, s, x);
    LookupsAgree(h, x.t + sim.notice + sim.hedgeLag, x.t - PREROLL_MS, x.t + TAIL_MS, sim.depth);
  }

  /** One trade: the same step if it was recorded, no step at all if it was not. */
  lemma XemmStepAgrees(rec: Recording, sim: XemmSim, h: seq<Entry>, st: XemmState, x: Trade, kept: bool)
    requires XemmCovered(rec, sim) && rec.depth > 0.0 && x.price > 0.0
    requires if kept then Covered(h, x.t - PREROLL_MS, x.t + TAIL_MS) else NoFill(rec, h, x)
    ensures XemmStep(sim, StatesOf(h), st, x) == if kept then XemmStep(sim, Kept(h, rec.depth), st, x) else st
  {
    hide Loaded, Kept, StatesOf, Covered, Fills, FillQuote, CouldFill, StateAt;
    var at := x.t - sim.quoteAge;
    if kept {
      LookupsAgree(h, at, x.t - PREROLL_MS, x.t + TAIL_MS, rec.depth);
      var s := StateAt(StatesOf(h), at);
      if s.Some? {
        LoadedFills(sim, s.value, x);
        if Fills(sim, s.value, x) { FillQuoteAgrees(sim, h, st, s.value, x); }
      }
    } else {
      FullAt(h, at);
      var s := StateAt(StatesOf(h), at);
      if s.Some? && x.venue == sim.maker && Fills(sim, s.value, x) {
        FillsCouldFill(rec, sim, s.value, x);
        assert false;
      }
    }
  }

  lemma {:induction false} XemmRunAgrees(rec: Recording, sim: XemmSim, h: seq<Entry>, hot: Option<int>, now: int,
          trades: seq<Trade>, kept: seq<bool>)
    requires XemmCovered(rec, sim) && rec.depth > 0.0 && TradeMoments(rec, hot, now, h, trades, kept)
    requires forall x :: x in trades ==> x.price > 0.0
    ensures XemmRun(sim, Kept(h, rec.depth), Chosen(trades, kept)) == XemmRun(sim, StatesOf(h), trades)
    decreases |trades|
  {
    hide XemmStep, Kept, StatesOf, Covered, NoFill;
    if trades != [] {
      var n := |trades| - 1;
      var init, flags, x := trades[..n], kept[..n], trades[n];
      assert x in trades;
      XemmRunAgrees(rec, sim, h, hot, now, init, flags);
      XemmStepAgrees(rec, sim, h, XemmRun(sim, StatesOf(h), init), x, kept[n]);
      var c := Chosen(init, flags);
      if kept[n] {
        assert (c + [x])[..|c|] == c;
      } else {
        assert Chosen(trades, kept) == c + [] == c;
      }
    }
  }

  // ---------------------------------------------------------------- loading

  lemma {:induction false} ChosenSorted(trades: seq<Trade>, kept: seq<bool>)
    requires |trades| == |kept| && SortedBy(trades, TradeTime)
    ensures SortedBy(Chosen(trades, kept), TradeTime)
    ensures forall x :: x in Chosen(trades, kept) ==> x in trades
    decreases |trades|
  {
    if trades != [] {
      var n := |trades| - 1;
      ChosenSorted(trades[..n], kept[..n]);
      var c := Chosen(trades[..n], kept[..n]);
      forall i | 0 <= i < |c| ensures TradeTime(c[i]) <= TradeTime(trades[n]) {
        assert c[i] in trades[..n];
        var k :| 0 <= k < n && trades[k] == c[i];
      }
    }
  }

  /** What the report loads of a run that tells its story. */
  lemma LoadedRun(rec: Recording, m: Market, h: seq<Entry>, d: Data, kept: seq<bool>, hot: Option<int>, now: int)
    requires Told(rec, m, h, d, kept, hot, now)
    ensures Sorted(d) == Data(Kept(h, rec.depth), Chosen(m.trades, kept), d.windows)
  {
    hide TriggerMoments, Covered, NoFill, Chosen, StatesOf, Timely;
    ChosenSorted(m.trades, kept);
    SortByFixed(d.trades, TradeTime);
    SortByFixed(d.windows, StartOf);
  }

  lemma {:induction false} TradePrices(m: Market, events: seq<Event>)
    requires PositivePrices(events) && forall x :: x in m.trades ==> x.price > 0.0
    ensures forall x :: x in SeeAll(m, events).trades ==> x.price > 0.0
    decreases |events|
  {
    if events != [] {
      var init := events[..|events| - 1];
      assert forall i :: 0 <= i < |init| ==> init[i] == events[i];
      TradePrices(m, init);
    }
  }

  // ---------------------------------------------------------------- the closing mark

  lemma {:induction false} MarksAgree(h: seq<Entry>, n: nat, depth: real)
    requires 0 < n <= |h| && h[n - 1].written && Known(h[n - 1].a) && Known(h[n - 1].l)
    requires forall i :: n <= i < |h| ==> !Known(h[i].a)
    ensures LastLeftKnown(StatesOf(h)) == LastBothKnown(StatesOf(h)) == Some(StateOf(h[n - 1]))
    ensures LastLeftKnown(Kept(h, depth)) == LastBothKnown(Kept(h, depth)) == Some(Loaded(StateOf(h[n - 1]), depth))
    decreases |h|
  {
    var init, e := h[..|h| - 1], h[|h| - 1];
    var k, s := Kept(init, depth), StatesOf(h);
    LoadedPrices(StateOf(e), depth);
    hide Loaded;
    assert s[..|s| - 1] == StatesOf(init) && s[|s| - 1] == StateOf(e);
    assert (k + [Loaded(StateOf(e), depth)])[..|k|] == k && k + [] == k;
    if n < |h| { MarksAgree(init, n, depth); }
  }

  lemma CloseOutAgrees(position: real, h: seq<Entry>, n: nat, depth: real, basis: Option<real>, clip: real,
          byDay: map<int, real>)
    requires clip != 0.0 && 0 < n <= |h| && h[n - 1].written && Known(h[n - 1].a) && Known(h[n - 1].l)
    requires forall i :: n <= i < |h| ==> !Known(h[i].a)
    ensures CloseOut(position, Kept(h, depth), basis, clip, byDay)
      == CloseOut(position, StatesOf(h), basis, clip, byDay)
  {
    hide CloseAt, Mid, Loaded, Kept, LastLeftKnown, LastBothKnown, Known;
    MarksAgree(h, n, depth);
    LoadedPrices(StateOf(h[n - 1]), depth);
  }

  /** The run's last book, before its end shows both connections closed. */
  lemma LastBook(now: int, events: seq<Event>, end: int, h: seq<Entry>)
    requires StatesOf(h) == FullStream(now, events, end).states
    ensures var m := SeeAll(Opening(now), events); var n := |m.states|;
      && |h| == n + 2 && n > 0 && h[n - 1].a == m.a && h[n - 1].l == m.l
      && forall i :: n <= i < |h| ==> !Known(h[i].a)
  {
    var m := SeeAll(Opening(now), events);
    var n, s := |m.states|, StatesOf(h);
    LastState(Opening(now), events);
    assert s[n - 1] == m.states[n - 1] && StateOf(h[n - 1]) == s[n - 1];
    assert StateOf(h[n]) == s[n] && StateOf(h[n + 1]) == s[n + 1];
    assert s[n].a == UNKNOWN && s[n + 1].a == UNKNOWN;
  }

  lemma {:induction false} LastState(m: Market, events: seq<Event>)
    requires m.states != [] && m.states[|m.states| - 1].a == m.a && m.states[|m.states| - 1].l == m.l
    ensures var r := SeeAll(m, events);
      r.states != [] && r.states[|r.states| - 1].a == r.a && r.states[|r.states| - 1].l == r.l
  {
    if events != [] { LastState(m, events[..|events| - 1]); }
  }

  // ---------------------------------------------------------------- the theorems

  /** The gated taker on the recorded lines takes the trades it takes on every state. */
  lemma TakerReplay(rec: Recording, base: seq<Window>, now: int, events: seq<Event>, end: int, sim: TakerSim)
    requires rec.span >= 0 && rec.depth > 0.0 && Before(base, now) && TakerCovered(rec, sim)
    ensures var data, full := LoadRun(base, Record(rec, base, now, events, end)), FullStream(now, events, end);
      TakerRun(sim, data.states, data.windows, |data.states|) == TakerRun(sim, full.states, data.windows, |full.states|)
  {
    hide Told, TakerRun, FullStream, Record, AddAll, Sorted;
    var h, kept, hot, clock := RunTells(rec, base, now, events, end);
    var d := AddAll(Data([], [], base), Record(rec, base, now, events, end));
    TakerToldAgrees(rec, FullStream(now, events, end), h, d, kept, hot, clock, sim);
  }

  lemma TakerToldAgrees(rec: Recording, m: Market, h: seq<Entry>, d: Data, kept: seq<bool>, hot: Option<int>,
          clock: int, sim: TakerSim)
    requires rec.depth > 0.0 && TakerCovered(rec, sim) && Told(rec, m, h, d, kept, hot, clock)
    ensures Sorted(d).states == Kept(h, rec.depth) && Sorted(d).windows == d.windows
    ensures TakerRun(sim, Sorted(d).states, d.windows, |Sorted(d).states|)
      == TakerRun(sim, m.states, d.windows, |m.states|)
  {
    hide TakerRun, Kept, TradeMoments, TriggerMoments, Timely, Agrees, Sorted;
    LoadedRun(rec, m, h, d, kept, hot, clock);
    TakerRunAgrees(rec, sim, h, d.windows, hot, |h|);
    assert h[..|h|] == h;
  }

  /** The maker-taker on the recorded lines takes the fills it takes on every state and every trade. */
  lemma XemmReplay(rec: Recording, base: seq<Window>, now: int, events: seq<Event>, end: int, sim: XemmSim)
    requires rec.span >= 0 && rec.depth > 0.0 && Before(base, now) && XemmCovered(rec, sim) && PositivePrices(events)
    ensures var data, full := LoadRun(base, Record(rec, base, now, events, end)), FullStream(now, events, end);
      XemmRun(sim, data.states, data.trades) == XemmRun(sim, full.states, full.trades)
  {
    hide Told, XemmRun, Record, AddAll, Sorted, SeeAll;
    var h, kept, hot, clock := RunTells(rec, base, now, events, end);
    var d := AddAll(Data([], [], base), Record(rec, base, now, events, end));
    TradePrices(Opening(now), events);
    XemmToldAgrees(rec, FullStream(now, events, end), h, d, kept, hot, clock, sim);
  }

  lemma XemmToldAgrees(rec: Recording, m: Market, h: seq<Entry>, d: Data, kept: seq<bool>, hot: Option<int>, clock: int,
          sim: XemmSim)
    requires rec.depth > 0.0 && XemmCovered(rec, sim) && Told(rec, m, h, d, kept, hot, clock)
    requires forall x :: x in m.trades ==> x.price > 0.0
    ensures Sorted(d).states == Kept(h, rec.depth)
    ensures XemmRun(sim, Sorted(d).states, Sorted(d).trades) == XemmRun(sim, m.states, m.trades)
  {
    hide XemmRun, Kept, TradeMoments, TriggerMoments, Timely, Agrees, Sorted, Chosen;
    LoadedRun(rec, m, h, d, kept, hot, clock);
    XemmRunAgrees(rec, sim, h, hot, clock, m.trades, kept);
  }

  /** With both books known when the run ends, the whole taker result is the same, closing mark included. */
  lemma TakerResultReplay(rec: Recording, base: seq<Window>, now: int, events: seq<Event>, end: int, sim: TakerSim)
    requires rec.span >= 0 && rec.depth > 0.0 && Before(base, now) && TakerCovered(rec, sim) && sim.clip != 0.0
    requires var m := SeeAll(Opening(now), events); Known(m.a) && Known(m.l)
    ensures var data, full := LoadRun(base, Record(rec, base, now, events, end)), FullStream(now, events, end);
      TakerResultOf(sim, data.states, data.windows, TakerRun(sim, data.states, data.windows, |data.states|))
      == TakerResultOf(sim, full.states, data.windows, TakerRun(sim, full.states, data.windows, |full.states|))
  {
    hide Told, TakerRun, Record, AddAll, Sorted, SeeAll, CloseOut, Count, Known, FullStream;
    var h, kept, hot, clock := RunTells(rec, base, now, events, end);
    var full, d := FullStream(now, events, end), AddAll(Data([], [], base), Record(rec, base, now, events, end));
    TakerToldAgrees(rec, full, h, d, kept, hot, clock, sim);
    assert StatesOf(h) == full.states by { ToldStates(rec, full, h, d, kept, hot, clock); }
    LastBook(now, events, end, h);
    var st := TakerRun(sim, full.states, d.windows, |full.states|);
    CloseOutAgrees(st.position, h, |h| - 2, rec.depth, sim.closeBasis, sim.clip, st.byDay);
  }

  lemma ToldStates(rec: Recording, m: Market, h: seq<Entry>, d: Data, kept: seq<bool>, hot: Option<int>, clock: int)
    requires Told(rec, m, h, d, kept, hot, clock)
    ensures StatesOf(h) == m.states
  {
  }

  /** With both books known when the run ends, the whole maker-taker result is the same. */
  lemma XemmResultReplay(rec: Recording, base: seq<Window>, now: int, events: seq<Event>, end: int, sim: XemmSim)
    requires rec.span >= 0 && rec.depth > 0.0 && Before(base, now) && XemmCovered(rec, sim) && PositivePrices(events)
    requires sim.clip != 0.0
    requires var m := SeeAll(Opening(now), events); Known(m.a) && Known(m.l)
    ensures var data, full := LoadRun(base, Record(rec, base, now, events, end)), FullStream(now, events, end);
      XemmResultOf(sim, data.states, XemmRun(sim, data.states, data.trades))
      == XemmResultOf(sim, full.states, XemmRun(sim, full.states, full.trades))
  {
    hide Told, XemmRun, Record, AddAll, Sorted, SeeAll, CloseOut, Known, FullStream;
    var h, kept, hot, clock := RunTells(rec, base, now, events, end);
    var full, d := FullStream(now, events, end), AddAll(Data([], [], base), Record(rec, base, now, events, end));
    assert forall x :: x in full.trades ==> x.price > 0.0 by { FullPrices(now, events, end); }
    XemmToldAgrees(rec, full, h, d, kept, hot, clock, sim);
    assert StatesOf(h) == full.states by { ToldStates(rec, full, h, d, kept, hot, clock); }
    LastBook(now, events, end, h);
    var st := XemmRun(sim, full.states, full.trades);
    CloseOutAgrees(st.position, h, |h| - 2, rec.depth, sim.closeBasis, sim.clip, st.byDay);
  }

  lemma FullPrices(now: int, events: seq<Event>, end: int)
    requires PositivePrices(events)
    ensures forall x :: x in FullStream(now, events, end).trades ==> x.price > 0.0
  {
    TradePrices(Opening(now), events);
  }
}

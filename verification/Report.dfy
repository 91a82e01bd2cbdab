/**
 The report's replay (SCREENER/src/report.rs): loading the recorded lines, the state in force at a
 time, the gated taker and the maker-taker (XEMM) simulations and their closing mark.
 */
module Report {
  import opened Common
  import opened Reals
  import opened Quotes
  import opened Gates
  import opened Collector

  const DAY_MS := 86400000

  function Day(t: int): int { t / DAY_MS }

  // ---------------------------------------------------------------- loading

  datatype Data = Data(states: seq<State>, trades: seq<Trade>, windows: seq<Window>)

  function ReadBook(b: Line): State
    requires b.BookLine?
  {
    State(b.t, Bbo(b.aBid, SizeOf(b.flags, 1), b.aAsk, SizeOf(b.flags, 2)),
          Bbo(b.lBid, SizeOf(b.flags, 4), b.lAsk, SizeOf(b.flags, 8)))
  }

  /** Adds one line, as read. */
  function Add(d: Data, line: Line): Data {
    match line
    case BookLine(_, _, _, _, _, _) => d.(states := d.states + [ReadBook(line)])
    case TradeLine(trade) => d.(trades := d.trades + [trade])
    case SummaryLine(start, samples) => d.(windows := d.windows + [Window(start, samples)])
    case GapLine(_, _) => d
  }

  function AddAll(d: Data, lines: seq<Line>): Data {
    if lines == [] then d else Add(AddAll(d, lines[..|lines| - 1]), lines[|lines| - 1])
  }

  /** Puts each series in time order: a pre-roll can be written after later states. */
  function Sorted(d: Data): Data {
    Data(SortBy(d.states, TimeOf), SortBy(d.trades, TradeTime), SortBy(d.windows, StartOf))
  }

  lemma {:induction false} AddAllConcat(d: Data, x: seq<Line>, y: seq<Line>)
    ensures AddAll(d, x + y) == AddAll(AddAll(d, x), y)
  {
    if y == [] {
      assert x + y == x;
    } else {
      AddAllConcat(d, x, y[..|y| - 1]);
      assert (x + y)[..|x + y| - 1] == x + y[..|y| - 1];
    }
  }

  // ---------------------------------------------------------------- lookups

  /** The last state at or before `t`. */
  function StateAt(states: seq<State>, t: int): (r: Option<State>)
    ensures r.Some? ==> r.value in states && r.value.t <= t
    ensures r.None? ==> forall s :: s in states ==> s.t > t
  {
    if states == [] then None
    else if states[|states| - 1].t <= t then Some(states[|states| - 1])
    else StateAt(states[..|states| - 1], t)
  }

  function LeftAt(states: seq<State>, t: int): Option<Bbo> {
    var s := StateAt(states, t);
    if s.Some? && Known(s.value.a) then Some(s.value.a) else None
  }

  function RightAt(states: seq<State>, t: int): Option<Bbo> {
    var s := StateAt(states, t);
    if s.Some? && Known(s.value.l) then Some(s.value.l) else None
  }

  function AddDay(byDay: map<int, real>, t: int, x: real): map<int, real> {
    byDay[Day(t) := (if Day(t) in byDay then byDay[Day(t)] else 0.0) + x]
  }

  // ---------------------------------------------------------------- the taker

  datatype TakerSim = TakerSim(
    required: real, percentile: real, minSamples: nat, extra: real, span: int, cooldown: int, maxPosition: real,
    clip: real, depth: real, feeA: real, feeL: real, lagA: int, lagL: int, closeBasis: Option<real>)

  datatype TakerFill = TakerFill(t: int, buyLeft: bool, edge: real, qty: real, pa: real, pl: real, net: real)

  datatype TakerState = TakerState(
    fills: seq<TakerFill>, unresolved: nat, position: real, cash: real, expected: real, realized: real,
    lastTrade: Option<int>, byDay: map<int, real>)

  const TAKER_START := TakerState([], 0, 0.0, 0.0, 0.0, 0.0, None, map[])

  /** The bot's threshold in a window: its gate over the span before, never below the margin. */
  function Threshold(sim: TakerSim, windows: seq<Window>, window: int): Option<real> {
    match Level(Total(InSpan(windows, window - sim.span, window)), sim.required, sim.percentile, sim.minSamples)
    case Some(g) => Some(RMax(g, sim.required + sim.extra))
    case None => None
  }

  predicate CoolingDown(last: Option<int>, t: int, cooldown: int) { last.Some? && t - last.value < cooldown }

  /** Would this trade grow the position past its cap? */
  predicate OverCap(sim: TakerSim, position: real, signed: real, mid: real) {
    var after := RAbs(Times(position + signed, mid));
    after > sim.maxPosition + 0.000000001 && after > RAbs(Times(position, mid))
  }

  /** Books a trade executed at `pa` on the left and `pl` on the right. */
  function Executed(sim: TakerSim, st: TakerState, t: int, mid: real, buyLeft: bool, edge: real, pa: real, pl: real)
    : TakerState
    requires mid != 0.0
  {
    var qty := Over(sim.clip, mid);
    var gross := if buyLeft then pl - pa else pa - pl;
    var net := Times(qty, gross) - Times(Times(qty, pa), sim.feeA) - Times(Times(qty, pl), sim.feeL);
    TakerState(st.fills + [TakerFill(t, buyLeft, edge, qty, pa, pl, net)], st.unresolved,
               st.position + (if buyLeft then qty else -qty), st.cash + net, st.expected + edge,
               st.realized + Over(gross, mid) * 10000.0, Some(t), AddDay(st.byDay, t, net))
  }

  /** Executes at `s`, each leg at the state after its latency. */
  function Take(sim: TakerSim, states: seq<State>, st: TakerState, s: State, buyLeft: bool, edge: real): TakerState
    requires Known(s.a)
  {
    var mid := Mid(s.a);
    var qty := Over(sim.clip, mid);
    if OverCap(sim, st.position, if buyLeft then qty else -qty, mid) then st
    else
      var fa, fl := LeftAt(states, s.t + sim.lagA), RightAt(states, s.t + sim.lagL);
      if fa.None? || fl.None? then st.(unresolved := st.unresolved + 1)
      else Executed(sim, st, s.t, mid, buyLeft, edge, if buyLeft then fa.value.ask else fa.value.bid,
                    if buyLeft then fl.value.bid else fl.value.ask)
  }

  predicate Passes(sim: TakerSim, edge: real, threshold: Option<real>) {
    edge >= sim.required && threshold.Some? && edge >= threshold.value
  }

  function TakerStep(sim: TakerSim, states: seq<State>, threshold: Option<real>, st: TakerState, s: State): TakerState {
    var best := BestEdge(s.a, s.l, sim.depth);
    if best.None? || !Passes(sim, best.value.bps, threshold) || CoolingDown(st.lastTrade, s.t, sim.cooldown) then st
    else Take(sim, states, st, s, best.value.buyLeft, best.value.bps)
  }

  /** After the first `n` states. */
  function TakerRun(sim: TakerSim, states: seq<State>, windows: seq<Window>, n: nat): TakerState
    requires n <= |states|
  {
    if n == 0 then TAKER_START
    else
      var s := states[n - 1];
      TakerStep(sim, states, Threshold(sim, windows, WindowOf(s.t)), TakerRun(sim, states, windows, n - 1), s)
  }

  // ---------------------------------------------------------------- the closing mark

  function LastLeftKnown(states: seq<State>): Option<State> {
    if states == [] then None
    else if Known(states[|states| - 1].a) then Some(states[|states| - 1])
    else LastLeftKnown(states[..|states| - 1])
  }

  function LastBothKnown(states: seq<State>): Option<State> {
    if states == [] then None
    else if Known(states[|states| - 1].a) && Known(states[|states| - 1].l) then Some(states[|states| - 1])
    else LastBothKnown(states[..|states| - 1])
  }

  datatype Closing = Closing(clips: real, cost: real, byDay: map<int, real>)

  /** Closes `position` at the left mid, its right leg `basis` bps from it, booked at `last`. */
  function CloseAt(position: real, mid: real, last: Option<int>, basis: real, clip: real, byDay: map<int, real>)
    : Closing
    requires clip != 0.0
  {
    var cost := Over(Times(Times(position, mid), basis), 10000.0);
    Closing(Over(Times(position, mid), clip), cost,
            if last.Some? && cost != 0.0 then AddDay(byDay, last.value, -cost) else byDay)
  }

  function CloseOut(position: real, states: seq<State>, basis: Option<real>, clip: real, byDay: map<int, real>): Closing
    requires clip != 0.0
  {
    var left, last := LastLeftKnown(states), LastBothKnown(states);
    CloseAt(position, if left.Some? then Mid(left.value.a) else 0.0, if last.Some? then Some(last.value.t) else None,
            if basis.Some? then basis.value else 0.0, clip, byDay)
  }

  datatype TakerResult = TakerResult(
    fills: seq<TakerFill>, unresolved: nat, samples: nat, warmup: bool, expectedBps: real, realizedBps: real,
    pnl: real, clips: real, byDay: map<int, real>, position: real)

  function TakerResultOf(sim: TakerSim, states: seq<State>, windows: seq<Window>, st: TakerState): TakerResult
    requires sim.clip != 0.0
  {
    var total := Total(windows);
    var samples := Count(total, EdgeBin(sim.required), Top(total));
    var n := |st.fills| as real;
    var c := CloseOut(st.position, states, sim.closeBasis, sim.clip, st.byDay);
    TakerResult(st.fills, st.unresolved, samples, samples < sim.minSamples,
                if n > 0.0 then Over(st.expected, n) else 0.0, if n > 0.0 then Over(st.realized, n) else 0.0,
                st.cash - c.cost, c.clips, c.byDay, st.position)
  }

  lemma WindowsGrow(t: int, t': int)
    requires t <= t'
    ensures WindowOf(t) <= WindowOf(t')
  {
    assert t / WINDOW_MS <= t' / WINDOW_MS;
    assert WindowOf(t) == t / WINDOW_MS * WINDOW_MS && WindowOf(t') == t' / WINDOW_MS * WINDOW_MS;
  }

  /** Pushing the windows up to `w` and expiring leaves the span before `w`, whatever was visited before. */
  lemma Followed(windows: seq<Window>, popped: nat, pushed: nat, w: int, span: int) returns (kept: nat)
    requires popped <= pushed <= |windows| && SortedBy(windows, StartOf)
    requires forall k :: 0 <= k < popped ==> windows[k].start < w - span
    requires forall k :: 0 <= k < pushed ==> windows[k].start < w
    requires pushed < |windows| ==> windows[pushed].start >= w
    ensures popped <= kept <= pushed && forall k :: 0 <= k < kept ==> windows[k].start < w - span
    ensures DropBefore(windows[popped..pushed], w - span) == windows[kept..pushed] == InSpan(windows, w - span, w)
  {
    kept := DropStretch(windows, popped, pushed, w - span);
    assert forall k :: kept <= k < pushed ==> StartOf(windows[kept]) <= StartOf(windows[k]);
    assert forall k :: pushed <= k < |windows| ==> StartOf(windows[pushed]) <= StartOf(windows[k]);
    StretchIsSpan(windows, kept, pushed, w - span, w);
  }

  /** Brings the gate to window `w`: pushes the windows before it and expires what left the span. */
  method FollowGate(gate: Gate, windows: seq<Window>, sim: TakerSim, ghost popped: nat, from: nat, w: int)
      returns (ghost kept: nat, pushed: nat, threshold: Option<real>)
    requires gate.Valid() && SortedBy(windows, StartOf)
    requires popped <= from <= |windows| && gate.windows == windows[popped..from]
    requires forall k :: 0 <= k < popped ==> windows[k].start < w - sim.span
    requires forall k :: 0 <= k < from ==> windows[k].start < w
    modifies gate
    ensures gate.Valid()
    ensures kept <= pushed <= |windows| && gate.windows == windows[kept..pushed]
    ensures forall k :: 0 <= k < kept ==> windows[k].start < w - sim.span
    ensures forall k :: 0 <= k < pushed ==> windows[k].start < w
    ensures threshold == Threshold(sim, windows, w)
  {
    hide Level, Total, InSpan, DropBefore;
    pushed := from;
    while pushed < |windows| && windows[pushed].start < w
      invariant from <= pushed <= |windows| && gate.Valid()
      invariant forall k :: 0 <= k < pushed ==> windows[k].start < w
      invariant gate.windows == windows[popped..pushed]
    {
      gate.Push(windows[pushed].start, windows[pushed].samples);
      pushed := pushed + 1;
    }
    kept := Followed(windows, popped, pushed, w, sim.span);
    gate.Expire(w - sim.span);
    var g := gate.LevelNow(sim.required, sim.percentile, sim.minSamples);
    threshold := if g.Some? then Some(RMax(g.value, sim.required + sim.extra)) else None;
  }

  /** The bot's gated taker over the states, its gate reading the windows before the state's own. */
  method SimulateTaker(states: seq<State>, windows: seq<Window>, sim: TakerSim) returns (r: TakerResult)
    requires SortedBy(states, TimeOf) && SortedBy(windows, StartOf)
    requires sim.clip != 0.0
    ensures r == TakerResultOf(sim, states, windows, TakerRun(sim, states, windows, |states|))
  {
    hide Level, Take, InSpan, Total;
    var gate := new Gate();
    var pushed: nat := 0;
    ghost var popped: nat := 0;
    var window: Option<int>, threshold: Option<real> := None, None;
    var st := TAKER_START;
    for i := 0 to |states|
      invariant gate.Valid() && fresh(gate)
      invariant st == TakerRun(sim, states, windows, i)
      invariant popped <= pushed <= |windows| && gate.windows == windows[popped..pushed]
      invariant window.None? ==> pushed == 0
      invariant window.Some? ==>
        && (i < |states| ==> window.value <= WindowOf(states[i].t))
        && (forall k :: 0 <= k < popped ==> windows[k].start < window.value - sim.span)
        && (forall k :: 0 <= k < pushed ==> windows[k].start < window.value)
        && threshold == Threshold(sim, windows, window.value)
    {
      var s := states[i];
      if i + 1 < |states| {
        assert TimeOf(states[i]) <= TimeOf(states[i + 1]);
        WindowsGrow(s.t, states[i + 1].t);
      }
      var best := BestEdge(s.a, s.l, sim.depth);
      if best.None? || best.value.bps < sim.required { continue; }
      var w := WindowOf(s.t);
      if window != Some(w) {
        popped, pushed, threshold := FollowGate(gate, windows, sim, popped, pushed, w);
        window := Some(w);
      }
      if threshold.None? || best.value.bps < threshold.value { continue; }
      if CoolingDown(st.lastTrade, s.t, sim.cooldown) { continue; }
      st := Take(sim, states, st, s, best.value.buyLeft, best.value.bps);
    }
    r := TakerResultOf(sim, states, windows, st);
  }

  // ---------------------------------------------------------------- the maker-taker (XEMM)

  datatype Distance = Distance(least: real, most: real)

  datatype XemmSim = XemmSim(
    maker: Leg, required: real, distance: Option<Distance>, feeMaker: real, feeHedge: real, clip: real, depth: real,
    quoteAge: int, notice: int, hedgeLag: int, cooldown: int, closeBasis: Option<real>)

  datatype XemmFill = XemmFill(
    t: int, buy: bool, price: real, qty: real, hedgePrice: real, reference: real, net: real)

  datatype XemmState = XemmState(fills: seq<XemmFill>, unresolved: nat, position: real, pnl: real, edgeSum: real,
                                 lastFill: Option<int>, byDay: map<int, real>)

  const XEMM_START := XemmState([], 0, 0.0, 0.0, 0.0, None, map[])

  function MakerBook(sim: XemmSim, s: State): Bbo { if sim.maker == Left then s.a else s.l }

  function HedgeBook(sim: XemmSim, s: State): Bbo { if sim.maker == Left then s.l else s.a }

  function Reference(s: State): real { (Mid(s.a) + Mid(s.l)) / 2.0 }

  /** The ask that leaves `required` over a hedge bought at `hedgeAsk`, after both fees. */
  function AskAtEdge(hedgeAsk: real, hedgeFee: real, required: real, fee: real): real
    requires fee < 1.0
  {
    Over(Times(hedgeAsk, 1.0 + hedgeFee) + required, 1.0 - fee)
  }

  /** The bid that leaves `required` under a hedge sold at `hedgeBid`, after both fees. */
  function BidAtEdge(hedgeBid: real, hedgeFee: real, required: real, fee: real): real
    requires fee > -1.0
  {
    Over(Times(hedgeBid, 1.0 - hedgeFee) - required, 1.0 + fee)
  }

  /** The bot's price, joining the touch at best. */
  function QuotePrice(sim: XemmSim, s: State, buy: bool): real
    requires -1.0 < sim.feeMaker < 1.0
  {
    var maker, hedge := MakerBook(sim, s), HedgeBook(sim, s);
    var required := BpsOf(sim.required, Reference(s));
    if buy then RMax(AskAtEdge(hedge.ask, sim.feeHedge, required, sim.feeMaker), maker.ask)
    else RMin(BidAtEdge(hedge.bid, sim.feeHedge, required, sim.feeMaker), maker.bid)
  }

  predicate InDistance(sim: XemmSim, s: State, buy: bool, price: real)
    requires Reference(s) != 0.0
  {
    sim.distance.Some? ==>
      var touch := if buy then MakerBook(sim, s).ask else MakerBook(sim, s).bid;
      var distance := RAbs(price - touch) / Reference(s) * 10000.0;
      sim.distance.value.least <= distance <= sim.distance.value.most
  }

  /** Would the trade fill the quote priced from `s`? */
  predicate Fills(sim: XemmSim, s: State, x: Trade)
    requires -1.0 < sim.feeMaker < 1.0
  {
    var maker, hedge := MakerBook(sim, s), HedgeBook(sim, s);
    Known(maker) && Known(hedge) &&
    var price := QuotePrice(sim, s, x.buy);
    (if x.buy then Deep(hedge.ask, hedge.askSize, sim.depth) else Deep(hedge.bid, hedge.bidSize, sim.depth)) &&
    InDistance(sim, s, x.buy, price) &&
    if x.buy then x.price > price else x.price < price
  }

  /** What the fill makes of our left leg: -1 when it sells it. */
  function Sign(sim: XemmSim, x: Trade): real { if x.buy == (sim.maker == Left) then -1.0 else 1.0 }

  /** Paused after a fill, or quoting only the other side. */
  predicate NotQuoted(sim: XemmSim, st: XemmState, x: Trade) {
    CoolingDown(st.lastFill, x.t, sim.cooldown) || st.position * Sign(sim, x) > 0.0
  }

  /** Books a fill at `price` hedged at `hedgePrice`: a clip when flat, else at most what flattens. */
  function Hedged(sim: XemmSim, st: XemmState, x: Trade, price: real, hedgePrice: real, reference: real): XemmState
    requires reference != 0.0
  {
    var qty := RMin(x.size, if st.position == 0.0 then Over(sim.clip, reference) else RAbs(st.position));
    var gross := if x.buy then price - hedgePrice else hedgePrice - price;
    var net := Times(qty, gross) - Times(Times(qty, price), sim.feeMaker) - Times(Times(qty, hedgePrice), sim.feeHedge);
    XemmState(st.fills + [XemmFill(x.t, x.buy, price, qty, hedgePrice, reference, net)], st.unresolved,
              st.position + Times(Sign(sim, x), qty), st.pnl + net, st.edgeSum + Over(gross, reference) * 10000.0,
              Some(x.t), AddDay(st.byDay, x.t, net))
  }

  /** Fills the quote priced from `s` and hedges it at the state in force after both latencies. */
  function FillQuote(sim: XemmSim, states: seq<State>, st: XemmState, s: State, x: Trade): XemmState
    requires -1.0 < sim.feeMaker < 1.0 && Fills(sim, s, x)
  {
    var at := x.t + sim.notice + sim.hedgeLag;
    var hedged := if sim.maker == Left then RightAt(states, at) else LeftAt(states, at);
    if hedged.None? then st.(unresolved := st.unresolved + 1)
    else
      Hedged(sim, st, x, QuotePrice(sim, s, x.buy),
             if x.buy then hedged.value.ask else hedged.value.bid, Reference(s))
  }

  function XemmStep(sim: XemmSim, states: seq<State>, st: XemmState, x: Trade): XemmState
    requires -1.0 < sim.feeMaker < 1.0
  {
    if x.venue != sim.maker || NotQuoted(sim, st, x) then st
    else
      var quoted := StateAt(states, x.t - sim.quoteAge);
      if quoted.None? || !Fills(sim, quoted.value, x) then st
      else FillQuote(sim, states, st, quoted.value, x)
  }

  function XemmRun(sim: XemmSim, states: seq<State>, trades: seq<Trade>): XemmState
    requires -1.0 < sim.feeMaker < 1.0
  {
    if trades == [] then XEMM_START
    else XemmStep(sim, states, XemmRun(sim, states, trades[..|trades| - 1]), trades[|trades| - 1])
  }

  datatype XemmResult = XemmResult(fills: seq<XemmFill>, unresolved: nat, edgeBps: real, pnl: real, clips: real,
                                   byDay: map<int, real>, position: real)

  function XemmResultOf(sim: XemmSim, states: seq<State>, st: XemmState): XemmResult
    requires sim.clip != 0.0
  {
    var n := |st.fills| as real;
    var c := CloseOut(st.position, states, sim.closeBasis, sim.clip, st.byDay);
    XemmResult(st.fills, st.unresolved, if n > 0.0 then Over(st.edgeSum, n) else 0.0,
               st.pnl - c.cost, c.clips, c.byDay, st.position)
  }

  method SimulateXemm(states: seq<State>, trades: seq<Trade>, sim: XemmSim) returns (r: XemmResult)
    requires -1.0 < sim.feeMaker < 1.0 && sim.clip != 0.0
    ensures r == XemmResultOf(sim, states, XemmRun(sim, states, trades))
  {
    var st := XEMM_START;
    for i := 0 to |trades|
      invariant st == XemmRun(sim, states, trades[..i])
    {
      assert trades[..i + 1][..i] == trades[..i];
      var x := trades[i];
      if x.venue != sim.maker { continue; }
      var signed := if x.buy == (sim.maker == Left) then -1.0 else 1.0;
      if (st.lastFill.Some? && x.t - st.lastFill.value < sim.cooldown) || st.position * signed > 0.0 { continue; }
      var quoted := StateAt(states, x.t - sim.quoteAge);
      if quoted.None? || !Fills(sim, quoted.value, x) { continue; }
      st := FillQuote(sim, states, st, quoted.value, x);
    }
    assert trades[..|trades|] == trades;
    r := XemmResultOf(sim, states, st);
  }
}

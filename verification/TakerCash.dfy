/**
 The gated taker's cash (SCREENER/src/report.rs): at which states it trades, at which prices each leg fills,
 what each fill nets, and what the result sums, said of the states, the windows and the fills.
 */
module TakerCash {
  import opened Common
  import opened Reals
  import opened Sums
  import opened Quotes
  import Gates
  import opened Collector
  import opened Report
  import opened Bookings

  // ---------------------------------------------------------------- what a fill is

  /** Cash of a fill before fees: what the sold leg brought less what the bought leg cost. */
  function Gross(f: TakerFill): real {
    if f.buyLeft then Times(f.qty, f.pl) - Times(f.qty, f.pa) else Times(f.qty, f.pa) - Times(f.qty, f.pl)
  }

  function Net(f: TakerFill): real { f.net }

  function NetOn(d: int): TakerFill -> real { (f: TakerFill) => if OnDay(f.t, d) then f.net else 0.0 }

  function EdgeOf(f: TakerFill): real { f.edge }

  /** What a fill adds to the left leg. */
  function SignedQty(f: TakerFill): real { if f.buyLeft then f.qty else -f.qty }

  function OpenLevel(sim: TakerSim, windows: seq<Gates.Window>, window: int): Option<real> {
    var total := Gates.Total(Gates.InSpan(windows, window - sim.span, window));
    Gates.Level(total, sim.required, sim.percentile, sim.minSamples)
  }

  /** The bot's gate opens to an edge: its level over the windows of the span before this one, and the margin. */
  ghost predicate GateOpens(sim: TakerSim, windows: seq<Gates.Window>, t: int, bps: real) {
    var window := Gates.WindowOf(t);
    var level := OpenLevel(sim, windows, window);
    level.Some? && bps >= level.value && bps >= sim.required + sim.extra && bps >= sim.required
  }

  /** The state offers the taker this direction at this edge. */
  ghost predicate Offers(sim: TakerSim, windows: seq<Gates.Window>, s: State, buyLeft: bool, bps: real) {
    Best(s, sim.depth, buyLeft, bps) && GateOpens(sim, windows, s.t, bps)
  }

  /** No fill within the cooldown before. */
  predicate Rested(fills: seq<TakerFill>, t: int, cooldown: int) {
    fills == [] || t - fills[|fills| - 1].t >= cooldown
  }

  /** A clip more stays within the cap, or brings the position nearer to flat; valued at the left mid. */
  predicate WithinCap(sim: TakerSim, position: real, s: State, buyLeft: bool)
    requires s.a.bid + s.a.ask != 0.0
  {
    var mid := (s.a.bid + s.a.ask) / 2.0;
    var after := RAbs(Times(position + (if buyLeft then Over(sim.clip, mid) else -Over(sim.clip, mid)), mid));
    after <= sim.maxPosition + 0.000000001 || after <= RAbs(Times(position, mid))
  }

  /** The books each leg trades on, each the state in force after its own latency. */
  ghost predicate Reached(sim: TakerSim, states: seq<State>, t: int, a: int, l: int) {
    && InForce(states, a, t + sim.lagA) && InForce(states, l, t + sim.lagL)
    && TwoSided(states[a].a) && TwoSided(states[l].l)
  }

  /** The fill of a clip: bought at the ask and sold at the bid of those books, less each leg's fee on its price. */
  ghost predicate Fill(sim: TakerSim, states: seq<State>, s: State, a: int, l: int, f: TakerFill)
    requires Reached(sim, states, s.t, a, l)
  {
    && f.t == s.t && Times(f.qty, s.a.bid + s.a.ask) == 2.0 * sim.clip
    && f.pa == (if f.buyLeft then states[a].a.ask else states[a].a.bid)
    && f.pl == (if f.buyLeft then states[l].l.bid else states[l].l.ask)
    && f.net == Gross(f) - Times(Times(f.qty, f.pa), sim.feeA) - Times(Times(f.qty, f.pl), sim.feeL)
  }

  // ---------------------------------------------------------------- one state

  /** The moment of a trade, and whether both books were there for it. */
  ghost predicate Moment(sim: TakerSim, windows: seq<Gates.Window>, st: TakerState, s: State, buyLeft: bool,
          bps: real)
  {
    && Offers(sim, windows, s, buyLeft, bps) && Rested(st.fills, s.t, sim.cooldown)
    && WithinCap(sim, st.position, s, buyLeft)
  }

  ghost predicate Unmet(sim: TakerSim, states: seq<State>, t: int) {
    forall a, l :: !Reached(sim, states, t, a, l)
  }

  /** One fill more, and nothing else but the sums. */
  ghost predicate Filled(sim: TakerSim, states: seq<State>, st: TakerState, s: State, buyLeft: bool, bps: real,
          q: TakerState)
  {
    && q.unresolved == st.unresolved && |q.fills| == |st.fills| + 1 && q.fills[..|st.fills|] == st.fills
    && var f := q.fills[|st.fills|];
    f.buyLeft == buyLeft && f.edge == bps
    && forall a, l :: Reached(sim, states, s.t, a, l) ==> Fill(sim, states, s, a, l, f)
  }

  /** What one state makes of a run: a fill, a fill left out for an unknown book, or nothing. */
  ghost predicate StepIs(sim: TakerSim, states: seq<State>, windows: seq<Gates.Window>, st: TakerState, s: State,
          q: TakerState)
  {
    && (forall buyLeft, bps :: Moment(sim, windows, st, s, buyLeft, bps) ==>
          if Unmet(sim, states, s.t) then q == st.(unresolved := st.unresolved + 1)
          else Filled(sim, states, st, s, buyLeft, bps, q))
    && ((forall buyLeft, bps :: !Moment(sim, windows, st, s, buyLeft, bps)) ==> q == st)
  }

  /** What the running sums of a run are. */
  ghost predicate Tallied(sim: TakerSim, st: TakerState) {
    && st.position == Sum(st.fills, SignedQty) && st.cash == Sum(st.fills, Net) && st.expected == Sum(st.fills, EdgeOf)
    && Times(st.realized, sim.clip) == 10000.0 * Sum(st.fills, Gross)
    && st.lastTrade == (if st.fills == [] then None else Some(st.fills[|st.fills| - 1].t))
    && (forall d :: DayNet(st.byDay, d) == Sum(st.fills, NetOn(d))) && AllDays(st.byDay) == st.cash
  }

  lemma ReachedIs(sim: TakerSim, states: seq<State>, t: int)
    ensures var fa, fl := LeftAt(states, t + sim.lagA), RightAt(states, t + sim.lagL);
      && (Unmet(sim, states, t) <==> fa.None? || fl.None?)
      && (forall a, l :: Reached(sim, states, t, a, l) ==> fa == Some(states[a].a) && fl == Some(states[l].l))
  {
    hide InForce, StateAt;
    var i := StateAtIs(states, t + sim.lagA);
    var j := StateAtIs(states, t + sim.lagL);
    StateAtOnly(states, t + sim.lagA);
    StateAtOnly(states, t + sim.lagL);
    if LeftAt(states, t + sim.lagA).Some? && RightAt(states, t + sim.lagL).Some? {
      assert Reached(sim, states, t, i, j);
    }
  }

  /** What is booked is a clip's fill at those books. */
  lemma FilledIs(sim: TakerSim, states: seq<State>, st: TakerState, s: State, buyLeft: bool, bps: real, a: int, l: int)
    requires TwoSided(s.a) && Reached(sim, states, s.t, a, l) && WithinCap(sim, st.position, s, buyLeft)
    ensures var q := Take(sim, states, st, s, buyLeft, bps);
      && Filled(sim, states, st, s, buyLeft, bps, q)
      && var f := q.fills[|st.fills|]; q == Executed(sim, st, s.t, Mid(s.a), buyLeft, bps, f.pa, f.pl)
  {
    hide AddDay, Times, Over, InForce;
    ReachedIs(sim, states, s.t);
    var q := Take(sim, states, st, s, buyLeft, bps);
    var f := q.fills[|st.fills|];
    QtyIs(sim.clip, s.a);
    forall a', l' | Reached(sim, states, s.t, a', l') ensures Fill(sim, states, s, a', l', f) {
      NetIs(f.qty, f.pa, f.pl);
    }
  }

  lemma QtyIs(clip: real, b: Bbo)
    requires b.bid + b.ask > 0.0
    ensures Times(Over(clip, Mid(b)), b.bid + b.ask) == 2.0 * clip
  {
    Divided(clip, Mid(b));
    assert Times(Over(clip, Mid(b)), b.bid + b.ask) == Times(Over(clip, Mid(b)), Mid(b)) * 2.0 by {
      hide Over;
      Doubled(Over(clip, Mid(b)), Mid(b));
      assert b.bid + b.ask == Mid(b) * 2.0;
    }
  }

  lemma Doubled(x: real, y: real)
    ensures Times(x, y * 2.0) == Times(x, y) * 2.0
  {
  }

  lemma NetIs(qty: real, pa: real, pl: real)
    ensures Times(qty, pl - pa) == Times(qty, pl) - Times(qty, pa)
    ensures Times(qty, pa - pl) == Times(qty, pa) - Times(qty, pl)
  {
    TimesSum(pl, pa, qty);
    TimesSum(pa, pl, qty);
  }

  // ---------------------------------------------------------------- a run

  /** A fill added keeps the sums. */
  lemma ExecutedTallies(sim: TakerSim, st: TakerState, t: int, b: Bbo, buyLeft: bool, bps: real, pa: real, pl: real)
    requires Tallied(sim, st) && b.bid + b.ask > 0.0
    ensures Tallied(sim, Executed(sim, st, t, Mid(b), buyLeft, bps, pa, pl))
  {
    hide AddDay, Times, Over, Sum, DayNet;
    var q := Executed(sim, st, t, Mid(b), buyLeft, bps, pa, pl);
    var f := q.fills[|st.fills|];
    SumNext(st.fills, f, SignedQty);
    SumNext(st.fills, f, Net);
    SumNext(st.fills, f, EdgeOf);
    SumNext(st.fills, f, Gross);
    AddDayIs(st.byDay, t, f.net);
    AddDayTotals(st.byDay, t, f.net);
    forall d ensures DayNet(q.byDay, d) == Sum(q.fills, NetOn(d)) { SumNext(st.fills, f, NetOn(d)); }
    NetIs(f.qty, pa, pl);
    RealizedMoves(st.realized, if buyLeft then pl - pa else pa - pl, Mid(b), sim.clip);
  }

  lemma RealizedMoves(realized: real, gross: real, mid: real, clip: real)
    requires mid != 0.0
    ensures Times(realized + Over(gross, mid) * 10000.0, clip)
      == Times(realized, clip) + 10000.0 * Times(Over(clip, mid), gross)
  {
    assert gross / mid * clip == clip / mid * gross;
  }

  /** One state's step: what it is, and that it keeps the sums. */
  lemma TakerStepIs(sim: TakerSim, states: seq<State>, windows: seq<Gates.Window>, st: TakerState, s: State)
    requires Tallied(sim, st)
    ensures var q := TakerStep(sim, states, Threshold(sim, windows, Gates.WindowOf(s.t)), st, s);
      StepIs(sim, states, windows, st, s, q) && Tallied(sim, q)
  {
    hide Times, Over, Tallied, Filled, Reached, Fill, BestEdge, Best, Executed, WithinCap, OverCap, Gates.Level;
    var best := BestEdge(s.a, s.l, sim.depth);
    BestIs(s, sim.depth);
    if best.Some? {
      TwoSides(s, sim.depth);
      var buyLeft, bps := best.value.buyLeft, best.value.bps;
      ReachedIs(sim, states, s.t);
      CapIs(sim, st.position, s, buyLeft);
      RestIs(sim, st, s.t);
      if Moment(sim, windows, st, s, buyLeft, bps) && !Unmet(sim, states, s.t) {
        var a, l :| Reached(sim, states, s.t, a, l);
        FilledIs(sim, states, st, s, buyLeft, bps, a, l);
        var q := Take(sim, states, st, s, buyLeft, bps);
        OneMore(sim, states, st, s, buyLeft, bps, q);
        ExecutedTallies(sim, st, s.t, s.a, buyLeft, bps, q.fills[|st.fills|].pa, q.fills[|st.fills|].pl);
      } else {
        UnresolvedTallies(sim, st);
      }
    }
  }

  lemma OneMore(sim: TakerSim, states: seq<State>, st: TakerState, s: State, buyLeft: bool, bps: real, q: TakerState)
    requires Filled(sim, states, st, s, buyLeft, bps, q)
    ensures |q.fills| == |st.fills| + 1
  {
  }

  lemma TwoSides(s: State, depth: real)
    requires BestEdge(s.a, s.l, depth).Some?
    ensures TwoSided(s.a) && TwoSided(s.l)
  {
  }

  lemma UnresolvedTallies(sim: TakerSim, st: TakerState)
    requires Tallied(sim, st)
    ensures Tallied(sim, st.(unresolved := st.unresolved + 1))
  {
  }

  lemma CapIs(sim: TakerSim, position: real, s: State, buyLeft: bool)
    requires TwoSided(s.a)
    ensures var qty := Over(sim.clip, Mid(s.a));
      WithinCap(sim, position, s, buyLeft) <==> !OverCap(sim, position, if buyLeft then qty else -qty, Mid(s.a))
  {
  }

  lemma RestIs(sim: TakerSim, st: TakerState, t: int)
    requires Tallied(sim, st)
    ensures Rested(st.fills, t, sim.cooldown) <==> !CoolingDown(st.lastTrade, t, sim.cooldown)
  {
  }

  /** Every run: the sums are those of its fills, and each state did what its own books and those after its lags say. */
  lemma {:induction false} TakerRunIs(sim: TakerSim, states: seq<State>, windows: seq<Gates.Window>, n: nat)
    requires n <= |states|
    ensures Tallied(sim, TakerRun(sim, states, windows, n))
    ensures n > 0 ==> var st := TakerRun(sim, states, windows, n - 1);
      StepIs(sim, states, windows, st, states[n - 1], TakerRun(sim, states, windows, n))
  {
    hide TakerStep, Tallied, StepIs, Threshold;
    if n == 0 {
      StartTallied(sim);
    } else {
      TakerRunIs(sim, states, windows, n - 1);
      TakerStepIs(sim, states, windows, TakerRun(sim, states, windows, n - 1), states[n - 1]);
    }
  }

  lemma StartTallied(sim: TakerSim)
    ensures Tallied(sim, TAKER_START)
  {
    NoDays();
  }

  /** Every fill of a run: the state it was taken at, at whose edge, and the books its legs traded on. */
  lemma {:induction false} EveryFill(sim: TakerSim, states: seq<State>, windows: seq<Gates.Window>, n: nat, k: nat)
      returns (i: nat, a: int, l: int)
    requires n <= |states| && k < |TakerRun(sim, states, windows, n).fills|
    ensures i < n && Reached(sim, states, states[i].t, a, l)
    ensures var f := TakerRun(sim, states, windows, n).fills[k];
      Offers(sim, windows, states[i], f.buyLeft, f.edge) && Fill(sim, states, states[i], a, l, f)
  {
    hide TakerRun, Offers, Fill, Reached, Tallied, TakerStep;
    if n == 0 { NoFills(sim, states, windows); }
    TakerRunIs(sim, states, windows, n);
    var st, q := TakerRun(sim, states, windows, n - 1), TakerRun(sim, states, windows, n);
    if k < |st.fills| {
      assert q.fills[k] == st.fills[k];
      i, a, l := EveryFill(sim, states, windows, n - 1, k);
    } else {
      var buyLeft, bps :| Moment(sim, windows, st, states[n - 1], buyLeft, bps);
      i := n - 1;
      a, l :| Reached(sim, states, states[i].t, a, l);
    }
  }

  lemma NoFills(sim: TakerSim, states: seq<State>, windows: seq<Gates.Window>)
    ensures TakerRun(sim, states, windows, 0).fills == []
  {
  }

  /** The result: its profit is the fills' less the closing cost, day by day and together, and its means are theirs. */
  lemma TakerResultIs(sim: TakerSim, states: seq<State>, windows: seq<Gates.Window>) returns (cost: real)
    requires sim.clip != 0.0
    ensures var r := TakerResultOf(sim, states, windows, TakerRun(sim, states, windows, |states|));
      var n := |r.fills| as real;
      && r.fills == TakerRun(sim, states, windows, |states|).fills && r.position == Sum(r.fills, SignedQty)
      && r.pnl == Sum(r.fills, Net) - cost && AllDays(r.byDay) == r.pnl
      && CostIs(r.position, states, sim.closeBasis, cost) && ClipsAre(r.position, states, sim.clip, r.clips)
      && (forall i, d :: LastKnown(states, i, true) ==>
            DayNet(r.byDay, d) == Sum(r.fills, NetOn(d)) - if OnDay(states[i].t, d) then cost else 0.0)
      && Times(r.expectedBps, n) == Sum(r.fills, EdgeOf)
      && Times(Times(r.realizedBps, n), sim.clip) == 10000.0 * Sum(r.fills, Gross)
  {
    hide Times, Over, CostIs, ClipsAre, LastKnown, AllDays, DayNet, OnDay, CloseOut, Gates.Count, TakerRun;
    TakerRunIs(sim, states, windows, |states|);
    var st := TakerRun(sim, states, windows, |states|);
    cost := CloseOut(st.position, states, sim.closeBasis, sim.clip, st.byDay).cost;
    CloseOutIs(st.position, states, sim.closeBasis, sim.clip, st.byDay);
    if st.fills != [] { FilledSaw(sim, states, windows); }
    if st.fills == [] { FlatCosts(states, sim.closeBasis, sim.clip, st.byDay); }
    NothingBefore(sim, states, windows, |states|);
    MeanTimes(st.expected, |st.fills|);
    MeanTimes(st.realized, |st.fills|);
  }

  /** The samples reported are all those from the required edge's bin up; fewer than the gate needs is a warm-up. */
  lemma SamplesAre(sim: TakerSim, states: seq<State>, windows: seq<Gates.Window>, st: TakerState, listed: seq<int>)
    requires sim.clip != 0.0 && Gates.Ascending(listed)
    requires forall b ::
      multiset(listed)[b] == if (b + 1) as real * 0.25 > sim.required then Gates.Recount(windows, b) else 0
    ensures var r := TakerResultOf(sim, states, windows, st);
      && r.samples == |listed| && (r.warmup <==> |listed| < sim.minSamples) && r.unresolved == st.unresolved
  {
    hide CloseOut, Over, Gates.Count, Gates.Total, Gates.Ascending, Gates.Recount, Gates.EdgeBin;
    Gates.EdgeBinIs(sim.required);
    Gates.CountIsListed(windows, listed, sim.required);
  }

  lemma {:induction false} NothingBefore(sim: TakerSim, states: seq<State>, windows: seq<Gates.Window>, n: nat)
    requires n <= |states|
    ensures var st := TakerRun(sim, states, windows, n);
      st.fills == [] ==> st.position == 0.0 && st.expected == 0.0 && st.realized == 0.0
  {
    hide Threshold, BestEdge, OverCap;
    if n > 0 { NothingBefore(sim, states, windows, n - 1); }
  }

  /** A run that filled saw both books known. */
  lemma FilledSaw(sim: TakerSim, states: seq<State>, windows: seq<Gates.Window>)
    requires TakerRun(sim, states, windows, |states|).fills != []
    ensures !NoneKnown(states, true)
  {
    hide TakerRun;
    var i, a, l := EveryFill(sim, states, windows, |states|, 0);
  }
}

/**
 Pending inventory (LIGHTER_ASTER_BOT/src/inventory.rs): maker fills net into one signed quantity until it
 is large enough to hedge.
 */
module Inventory {
  import opened Common
  import opened Reals
  import opened Decimals
  import opened Accounts

  datatype Rules = Rules(minNotional: real, step: real)

  datatype Pending = Pending(signed: real, avgPx: real, firstTs: int, lastTs: int)

  datatype Netted = Netted(closed: real, openPx: real, closePx: real, pnl: real)

  datatype Hedge = Hedge(side: Side, qty: real, avgPx: real)

  datatype Outcome = Outcome(pending: Option<Pending>, netted: Option<Netted>, hedge: Option<Hedge>)

  datatype MakerFill = MakerFill(side: Side, qty: real, px: real, ts: int, refPx: real)

  /** The smallest quantity worth hedging at a reference price. */
  function MinHedge(rules: Rules, refPx: real): real {
    if refPx <= 0.0 then rules.step else RMax(CeilToStep(rules.minNotional / refPx, rules.step), rules.step)
  }

  function Signed(side: Side, qty: real): real { if side == Buy then qty else -qty }

  function HedgeSide(signed: real): Option<Side> {
    if signed > 0.0 then Some(Sell) else if signed < 0.0 then Some(Buy) else None
  }

  function FeeOn(closed: real, px: real, rate: real): real { closed * px * rate }

  /** What is pending once the fill is netted in, and what that closed. */
  function Net(inv: Pending, fill: MakerFill, rate: real): (Pending, Option<Netted>) {
    var signed := Signed(fill.side, fill.qty);
    if inv.signed == 0.0 || (inv.signed > 0.0) == (signed > 0.0) then
      var total := RAbs(inv.signed) + RAbs(signed);
      (inv.(signed := inv.signed + signed, lastTs := fill.ts,
            avgPx := if total > 0.0 then Weighted(inv.avgPx, RAbs(inv.signed), fill.px, RAbs(signed)) else inv.avgPx),
       None)
    else
      var closed := RMin(RAbs(inv.signed), RAbs(signed));
      var fees := FeeOn(closed, inv.avgPx, rate) + FeeOn(closed, fill.px, rate);
      var netted := Netted(closed, inv.avgPx, fill.px, Realized(inv.signed > 0.0, closed, inv.avgPx, fill.px) - fees);
      var after := inv.signed + signed;
      (inv.(signed := after, lastTs := fill.ts,
            avgPx := if after == 0.0 || (after > 0.0) == (inv.signed > 0.0) then inv.avgPx else fill.px), Some(netted))
  }

  function HandleFill(pending: Option<Pending>, fill: MakerFill, rules: Rules, rate: real): Outcome {
    var inv := if pending.Some? then pending.value else Pending(0.0, fill.px, fill.ts, fill.ts);
    var n := Net(inv, fill, rate);
    if n.0.signed == 0.0 then Outcome(None, n.1, None)
    else if RAbs(n.0.signed) >= MinHedge(rules, fill.refPx) then
      Outcome(None, n.1, Some(Hedge(HedgeSide(n.0.signed).value, RAbs(n.0.signed), n.0.avgPx)))
    else Outcome(Some(n.0), n.1, None)
  }

  /** As it runs: the local inventory record updated in place. */
  method HandleFillParts(pending: Option<Pending>, fill: MakerFill, rules: Rules, rate: real) returns (out: Outcome)
    ensures out == HandleFill(pending, fill, rules, rate)
  {
    hide Weighted, Realized, FeeOn, MinHedge;
    var signed := Signed(fill.side, fill.qty);
    var inv := if pending.Some? then pending.value else Pending(0.0, fill.px, fill.ts, fill.ts);
    var netted := None;
    if inv.signed == 0.0 || (inv.signed > 0.0) == (signed > 0.0) {
      if RAbs(inv.signed) + RAbs(signed) > 0.0 {
        inv := inv.(avgPx := Weighted(inv.avgPx, RAbs(inv.signed), fill.px, RAbs(signed)));
      }
      inv := inv.(signed := inv.signed + signed);
    } else {
      var closed := RMin(RAbs(inv.signed), RAbs(signed));
      var gross := Realized(inv.signed > 0.0, closed, inv.avgPx, fill.px);
      var fees := FeeOn(closed, inv.avgPx, rate) + FeeOn(closed, fill.px, rate);
      netted := Some(Netted(closed, inv.avgPx, fill.px, gross - fees));
      var after := inv.signed + signed;
      if after == 0.0 {
        inv := inv.(signed := 0.0);
      } else if (after > 0.0) == (inv.signed > 0.0) {
        inv := inv.(signed := after);
      } else {
        inv := inv.(signed := after, avgPx := fill.px);
      }
    }
    inv := inv.(lastTs := fill.ts);
    var size := RAbs(inv.signed);
    if size == 0.0 { return Outcome(None, netted, None); }
    if size >= MinHedge(rules, fill.refPx) {
      out := Outcome(None, netted, Some(Hedge(HedgeSide(inv.signed).value, size, inv.avgPx)));
    } else {
      out := Outcome(Some(inv), netted, None);
    }
  }

  // ---------------------------------------------------------------- conservation

  /** Everything a run of fills produced. */
  datatype Book = Book(pending: Option<Pending>, netted: seq<Netted>, hedges: seq<Hedge>)

  function Fold(fills: seq<MakerFill>, rules: Rules, rate: real): Book {
    if fills == [] then Book(None, [], [])
    else
      var b := Fold(fills[..|fills| - 1], rules, rate);
      var o := HandleFill(b.pending, fills[|fills| - 1], rules, rate);
      Book(o.pending, b.netted + (if o.netted.Some? then [o.netted.value] else []),
           b.hedges + if o.hedge.Some? then [o.hedge.value] else [])
  }

  /** What a fill adds to the Aster position: a purchase its quantity, a sale that much less. */
  function Brings(fill: MakerFill): real {
    match fill.side
    case Buy => fill.qty
    case Sell => -fill.qty
  }

  /** The Aster position a hedge answers: a sell hedges a long. */
  function Hedged(h: Hedge): real { if h.side == Sell then h.qty else -h.qty }

  function PendingQty(p: Option<Pending>): real { if p.Some? then p.value.signed else 0.0 }

  function PendingCost(p: Option<Pending>): real { if p.Some? then Times(p.value.signed, p.value.avgPx) else 0.0 }

  function SumFills(fills: seq<MakerFill>): real {
    if fills == [] then 0.0
    else SumFills(fills[..|fills| - 1]) + Brings(fills[|fills| - 1])
  }

  function CostFills(fills: seq<MakerFill>): real {
    if fills == [] then 0.0
    else
      var f := fills[|fills| - 1];
      CostFills(fills[..|fills| - 1]) + Times(Brings(f), f.px)
  }

  function SumHedges(hedges: seq<Hedge>): real {
    if hedges == [] then 0.0 else SumHedges(hedges[..|hedges| - 1]) + Hedged(hedges[|hedges| - 1])
  }

  function CostHedges(hedges: seq<Hedge>): real {
    if hedges == [] then 0.0
    else CostHedges(hedges[..|hedges| - 1]) + Times(Hedged(hedges[|hedges| - 1]), hedges[|hedges| - 1].avgPx)
  }

  /** A netting's result before its fees: the maker rate on both prices of what it closed. */
  function Gross(n: Netted, rate: real): real {
    n.pnl + Times(rate, Times(n.closed, n.openPx) + Times(n.closed, n.closePx))
  }

  function SumGross(netted: seq<Netted>, rate: real): real {
    if netted == [] then 0.0 else SumGross(netted[..|netted| - 1], rate) + Gross(netted[|netted| - 1], rate)
  }

  lemma FeesAre(closed: real, openPx: real, closePx: real, rate: real)
    ensures FeeOn(closed, openPx, rate) + FeeOn(closed, closePx, rate)
      == Times(rate, Times(closed, openPx) + Times(closed, closePx))
  {
  }

  lemma GrossIs(n: Netted, gain: real, rate: real)
    requires n.pnl == gain - (FeeOn(n.closed, n.openPx, rate) + FeeOn(n.closed, n.closePx, rate))
    ensures Gross(n, rate) == gain
  {
    hide Times, FeeOn;
    FeesAre(n.closed, n.openPx, n.closePx, rate);
  }

  /**
   Only a fill against the pending side nets: at their two prices, what both sizes lose.
   */
  lemma NettedIs(inv: Pending, fill: MakerFill, rate: real)
    ensures var n := Net(inv, fill, rate); var signed := Brings(fill);
      && (n.1.Some? <==> inv.signed != 0.0 && (inv.signed > 0.0) != (signed > 0.0))
      && (n.1.Some? ==>
            && RAbs(inv.signed) + RAbs(signed) == RAbs(n.0.signed) + n.1.value.closed + n.1.value.closed
            && n.1.value.openPx == inv.avgPx && n.1.value.closePx == fill.px)
  {
    hide FeeOn, Realized, Weighted;
  }

  predicate Adds(inv: Pending, signed: real) { inv.signed == 0.0 || (inv.signed > 0.0) == (signed > 0.0) }

  lemma NetAdds(inv: Pending, fill: MakerFill, rate: real)
    requires Adds(inv, Brings(fill))
    ensures var n := Net(inv, fill, rate).0; var signed := Brings(fill);
      Times(n.signed, n.avgPx) == Times(inv.signed, inv.avgPx) + Times(signed, fill.px)
  {
    hide Weighted, Times;
    var signed, n := Brings(fill), Net(inv, fill, rate).0;
    var h, a := RAbs(inv.signed), RAbs(signed);
    TimesSum(inv.signed, signed, n.avgPx);
    TimesSum(signed, inv.signed, fill.px);
    TimesSum(inv.signed, signed, inv.avgPx);
    TimesSum(h, a, n.avgPx);
    if h + a > 0.0 {
      WeighsIn(inv.avgPx, h, fill.px, a);
      if signed > 0.0 || inv.signed > 0.0 {
        assert h == inv.signed && a == signed && n.signed == h + a;
      } else {
        assert h == -inv.signed && a == -signed && n.signed == -(h + a);
        TimesSum(h + a, 0.0, n.avgPx);
      }
    } else {
      assert n.signed == 0.0 == inv.signed == signed;
    }
  }

  lemma WeighsIn(px: real, held: real, addPx: real, add: real)
    requires held + add > 0.0
    ensures Times(held + add, Weighted(px, held, addPx, add)) == Times(held, px) + Times(add, addPx)
  {
    hide Weighted;
    Weighs(px, held, addPx, add);
  }

  lemma RealizedIs(long: bool, closed: real, avgPx: real, px: real)
    ensures Realized(long, closed, avgPx, px)
      == if long then Times(closed, px) - Times(closed, avgPx) else Times(closed, avgPx) - Times(closed, px)
  {
  }

  /** Cost moves by the signed quantity at its price and what closing realizes, whichever price is kept. */
  lemma Cancels(held: real, signed: real, avgPx: real, px: real, closed: real, kept: real)
    requires held != 0.0 && (held > 0.0) != (signed > 0.0) && closed == RMin(RAbs(held), RAbs(signed))
    requires kept == if RAbs(signed) <= RAbs(held) then avgPx else px
    ensures Times(held + signed, kept) == Times(held, avgPx) + Times(signed, px)
      + if held > 0.0 then Times(closed, px) - Times(closed, avgPx) else Times(closed, avgPx) - Times(closed, px)
  {
    hide Times;
    TimesSum(held, signed, kept);
    TimesSum(held, signed, px);
    TimesSum(held, signed, avgPx);
    TimesSum(signed, held, px);
    TimesSum(signed, held, avgPx);
    if RAbs(signed) <= RAbs(held) {
      assert kept == avgPx && closed == if held > 0.0 then -signed else signed;
    } else {
      assert kept == px && closed == if held > 0.0 then held else -held;
    }
  }

  lemma NetCloses(inv: Pending, fill: MakerFill, rate: real)
    requires !Adds(inv, Brings(fill))
    ensures var n := Net(inv, fill, rate); var signed := Brings(fill);
      Times(n.0.signed, n.0.avgPx) == Times(inv.signed, inv.avgPx) + Times(signed, fill.px) + Gross(n.1.value, rate)
  {
    hide Weighted, FeeOn, Times, Gross, Realized;
    var signed := Brings(fill);
    var closed := RMin(RAbs(inv.signed), RAbs(signed));
    GrossIs(Net(inv, fill, rate).1.value, Realized(inv.signed > 0.0, closed, inv.avgPx, fill.px), rate);
    RealizedIs(inv.signed > 0.0, closed, inv.avgPx, fill.px);
    Cancels(inv.signed, signed, inv.avgPx, fill.px, closed, Net(inv, fill, rate).0.avgPx);
  }

  /** Netting moves quantity by the fill, and cost by the fill less what it realizes. */
  lemma NetMoves(inv: Pending, fill: MakerFill, rate: real)
    ensures var n := Net(inv, fill, rate); var signed := Brings(fill);
      && n.0.signed == inv.signed + signed
      && Times(n.0.signed, n.0.avgPx)
         == Times(inv.signed, inv.avgPx) + Times(signed, fill.px) + (if n.1.Some? then Gross(n.1.value, rate) else 0.0)
  {
    hide Weighted, FeeOn, Times, Gross, Realized;
    if Adds(inv, Brings(fill)) {
      NetAdds(inv, fill, rate);
    } else {
      NetCloses(inv, fill, rate);
    }
  }

  /** One fill: what it brings is hedged or still pending, and its cost likewise, less what netting realized. */
  lemma HandleConserves(pending: Option<Pending>, fill: MakerFill, rules: Rules, rate: real)
    ensures var o := HandleFill(pending, fill, rules, rate); var signed := Brings(fill);
      && PendingQty(pending) + signed == PendingQty(o.pending) + (if o.hedge.Some? then Hedged(o.hedge.value) else 0.0)
      && PendingCost(pending) + Times(signed, fill.px) + (if o.netted.Some? then Gross(o.netted.value, rate) else 0.0)
         == PendingCost(o.pending) + (if o.hedge.Some? then Times(Hedged(o.hedge.value), o.hedge.value.avgPx) else 0.0)
  {
    hide Net, Times, Gross, MinHedge;
    var inv := if pending.Some? then pending.value else Pending(0.0, fill.px, fill.ts, fill.ts);
    NetMoves(inv, fill, rate);
    NoTimes(fill.px);
    NoTimes(Net(inv, fill, rate).0.avgPx);
  }

  lemma NoTimes(px: real)
    ensures Times(0.0, px) == 0.0
  {
  }

  lemma OneMore(b: Book, o: Outcome, rate: real)
    ensures SumHedges(b.hedges + if o.hedge.Some? then [o.hedge.value] else [])
      == SumHedges(b.hedges) + if o.hedge.Some? then Hedged(o.hedge.value) else 0.0
    ensures CostHedges(b.hedges + if o.hedge.Some? then [o.hedge.value] else [])
      == CostHedges(b.hedges) + if o.hedge.Some? then Times(Hedged(o.hedge.value), o.hedge.value.avgPx) else 0.0
    ensures SumGross(b.netted + (if o.netted.Some? then [o.netted.value] else []), rate)
      == SumGross(b.netted, rate) + if o.netted.Some? then Gross(o.netted.value, rate) else 0.0
  {
    hide Times, Gross;
    assert b.hedges + [] == b.hedges && b.netted + [] == b.netted;
    if o.hedge.Some? { assert (b.hedges + [o.hedge.value])[..|b.hedges|] == b.hedges; }
    if o.netted.Some? { assert (b.netted + [o.netted.value])[..|b.netted|] == b.netted; }
  }

  /**
   Every run of fills: the signed fills are exactly what was hedged and what is pending, and what the
   fills cost is what those are carried at, less the gains netting realized.
   */
  lemma {:induction false} Conservation(fills: seq<MakerFill>, rules: Rules, rate: real)
    ensures var b := Fold(fills, rules, rate);
      && SumFills(fills) == SumHedges(b.hedges) + PendingQty(b.pending)
      && CostFills(fills) + SumGross(b.netted, rate) == CostHedges(b.hedges) + PendingCost(b.pending)
  {
    hide HandleFill, Times, Gross;
    if fills != [] {
      var init, f := fills[..|fills| - 1], fills[|fills| - 1];
      Conservation(init, rules, rate);
      var b := Fold(init, rules, rate);
      HandleConserves(b.pending, f, rules, rate);
      OneMore(b, HandleFill(b.pending, f, rules, rate), rate);
    }
  }

  /** The minimum hedge is the least whole number of steps, at least one, that is worth the venue's minimum. */
  lemma MinHedgeIsLeast(rules: Rules, refPx: real)
    requires rules.step > 0.0 && refPx > 0.0
    ensures var q := MinHedge(rules, refPx);
      && q >= rules.step && Times(q, refPx) >= rules.minNotional && OnStep(q, rules.step)
      && forall k: int :: Steps(k, rules.step) >= rules.step && Times(Steps(k, rules.step), refPx) >= rules.minNotional
           ==> q <= Steps(k, rules.step)
  {
    hide Steps, CeilToStep, OnStep;
    var need := rules.minNotional / refPx;
    CeilIsSmallest(need, rules.step);
    Quotient(rules.minNotional, refPx);
    StepsNext(1, rules.step);
    OneStep(rules.step);
    var q := MinHedge(rules, refPx);
    ProductGrows(need, q, refPx);
    forall k: int | Steps(k, rules.step) >= rules.step && Times(Steps(k, rules.step), refPx) >= rules.minNotional
      ensures q <= Steps(k, rules.step)
    {
      ProductGrows(Steps(k, rules.step), need, refPx);
    }
  }

  lemma OneStep(step: real)
    ensures OnStep(step, step)
  {
    assert step == Steps(1, step);
  }

  /** What stays pending is below the hedgeable size, and every hedge reaches it. */
  lemma HedgesWhenLargeEnough(pending: Option<Pending>, fill: MakerFill, rules: Rules, rate: real)
    ensures var o := HandleFill(pending, fill, rules, rate);
      var net := PendingQty(pending) + Brings(fill);
      && (o.hedge.Some? <==> net != 0.0 && RAbs(net) >= MinHedge(rules, fill.refPx))
      && (o.hedge.Some? ==> o.pending.None? && Hedged(o.hedge.value) == net && o.hedge.value.qty > 0.0)
      && (o.pending.Some? <==> net != 0.0 && RAbs(net) < MinHedge(rules, fill.refPx))
      && (o.pending.Some? ==> o.pending.value.signed == net)
  {
    hide Net, MinHedge;
    NetMoves(if pending.Some? then pending.value else Pending(0.0, fill.px, fill.ts, fill.ts), fill, rate);
  }
}

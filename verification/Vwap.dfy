/**
 Walking a book side (LIGHTER_ASTER_BOT/src/vwap.rs): the volume-weighted price of taking a quantity, level
 by level from the touch.
 */
module Vwap {
  import opened Common
  import opened Reals
  import opened Books

  /** The quantity and the notional taken from these levels for `qty`, and the price of the last one touched. */
  function Taken(levels: seq<Level>, qty: real): real
    decreases |levels|
  {
    if levels == [] || qty <= 0.0 then 0.0
    else RMin(qty, levels[0].qty) + Taken(levels[1..], qty - RMin(qty, levels[0].qty))
  }

  function Lot(l: Level, qty: real): real { RMin(qty, l.qty) * l.px }

  function Notional(levels: seq<Level>, qty: real): real
    decreases |levels|
  {
    if levels == [] || qty <= 0.0 then 0.0
    else Lot(levels[0], qty) + Notional(levels[1..], qty - RMin(qty, levels[0].qty))
  }

  function Worst(levels: seq<Level>, qty: real, px: real): real
    decreases |levels|
  {
    if levels == [] || qty <= 0.0 then px
    else Worst(levels[1..], qty - RMin(qty, levels[0].qty), levels[0].px)
  }

  function Depth(levels: seq<Level>): real
    decreases |levels|
  {
    if levels == [] then 0.0 else levels[0].qty + Depth(levels[1..])
  }

  ghost predicate Sized(levels: seq<Level>) { forall i :: 0 <= i < |levels| ==> levels[i].qty > 0.0 }

  /** What a book side is: positive quantities at positive prices. */
  ghost predicate Solid(levels: seq<Level>) { Sized(levels) && forall i :: 0 <= i < |levels| ==> levels[i].px > 0.0 }

  datatype Walk = Walk(vwap: real, filled: real, worst: real, levelsUsed: nat, slippageBps: real, exhausted: bool)

  /** The slippage from the touch, in bps, on the side taken. */
  function Slippage(buying: bool, vwap: real, touch: real): real
    requires touch != 0.0
  {
    (if buying then (vwap - touch) / touch else (touch - vwap) / touch) * 10000.0
  }

  /** The average, as the touch moved by the slippage. */
  lemma SlippageIs(buying: bool, vwap: real, touch: real)
    requires touch > 0.0
    ensures var rate := Slippage(buying, vwap, touch) / 10000.0;
      vwap == Times(touch, if buying then 1.0 + rate else 1.0 - rate)
  {
    var away := if buying then vwap - touch else touch - vwap;
    assert away / touch * 10000.0 / 10000.0 == away / touch;
    assert Times(touch, away / touch) == away;
    TimesSum(1.0, away / touch, touch);
    assert Times(touch, 1.0) == touch;
  }

  /** The slippage is within a bound exactly when the average is within that of the touch. */
  lemma SlippageWithin(buying: bool, vwap: real, touch: real, most: real)
    requires touch > 0.0
    ensures Slippage(buying, vwap, touch) <= most <==>
      if buying then vwap <= Times(touch, 1.0 + most / 10000.0) else vwap >= Times(touch, 1.0 - most / 10000.0)
  {
    hide Times, Slippage;
    SlippageIs(buying, vwap, touch);
    var rate, bound := Slippage(buying, vwap, touch) / 10000.0, most / 10000.0;
    if buying {
      TimesOrders(1.0 + rate, 1.0 + bound, touch);
      TimesSum(1.0 + rate, 0.0, touch);
      TimesSum(1.0 + bound, 0.0, touch);
    } else {
      TimesOrders(1.0 - bound, 1.0 - rate, touch);
      TimesSum(1.0 - rate, 0.0, touch);
      TimesSum(1.0 - bound, 0.0, touch);
    }
  }

  /** What lies ahead of a level. */
  function QtyBefore(levels: seq<Level>, i: nat): real
    requires i <= |levels|
  {
    if i == 0 then 0.0 else QtyBefore(levels, i - 1) + levels[i - 1].qty
  }

  /** The first levels by which `qty` is reached, or all of them. */
  ghost predicate Used(levels: seq<Level>, qty: real, n: nat) {
    && 0 < n <= |levels| && QtyBefore(levels, n - 1) < qty && (n == |levels| || QtyBefore(levels, n) >= qty)
  }

  /** What the first `n` levels cost: of each, what is left of `qty`, but no more than it holds. */
  function Paid(levels: seq<Level>, n: nat, qty: real): real
    requires n <= |levels|
  {
    if n == 0 then 0.0
    else
      Paid(levels, n - 1, qty)
      + Times(RMax(RMin(levels[n - 1].qty, qty - QtyBefore(levels, n - 1)), 0.0), levels[n - 1].px)
  }

  function Average(notional: real, filled: real): real
    requires filled != 0.0
  {
    notional / filled
  }

  /** Takes `qty`, as much of it as there is. */
  method TakePartial(buying: bool, levels: seq<Level>, qty: real) returns (r: Option<Walk>)
    ensures r.None? <==> qty <= 0.0 || levels == [] || levels[0].px <= 0.0 || Taken(levels, qty) <= 0.0
    ensures r.Some? ==>
      && r.value.filled == Taken(levels, qty)
      && r.value.vwap == Average(Notional(levels, qty), r.value.filled)
      && r.value.worst == Worst(levels, qty, levels[0].px)
      && r.value.vwap == Times(levels[0].px, if buying then 1.0 + r.value.slippageBps / 10000.0
                                             else 1.0 - r.value.slippageBps / 10000.0)
      && r.value.slippageBps == Slippage(buying, r.value.vwap, levels[0].px)
      && (Sized(levels) ==> Used(levels, qty, r.value.levelsUsed))
      && (r.value.exhausted <==> Taken(levels, qty) < qty)
  {
    hide Lot, Average, Slippage, Times;
    if qty <= 0.0 || levels == [] { return None; }
    var touch := levels[0].px;
    if touch <= 0.0 { return None; }
    var remaining, notional, filled, worst := qty, 0.0, 0.0, touch;
    var used := 0;
    assert levels[0..] == levels;
    while used < |levels| && remaining > 0.0
      invariant 0 <= used <= |levels| && remaining == qty - filled
      invariant filled + Taken(levels[used..], remaining) == Taken(levels, qty)
      invariant notional + Notional(levels[used..], remaining) == Notional(levels, qty)
      invariant Worst(levels[used..], remaining, worst) == Worst(levels, qty, touch)
      invariant Sized(levels) && used > 0 ==> QtyBefore(levels, used - 1) < qty
      invariant Sized(levels) ==> remaining == RMax(qty - QtyBefore(levels, used), 0.0)
    {
      var l := levels[used];
      var take := RMin(remaining, l.qty);
      assert levels[used..][1..] == levels[used + 1..] && levels[used..][0] == l;
      assert levels[used..] != [];
      notional := notional + Lot(l, remaining);
      filled := filled + take;
      remaining := remaining - take;
      worst := l.px;
      used := used + 1;
    }
    assert Taken(levels[used..], remaining) == 0.0 && Notional(levels[used..], remaining) == 0.0;
    if filled <= 0.0 { return None; }
    var vwap := Average(notional, filled);
    SlippageIs(buying, vwap, touch);
    r := Some(Walk(vwap, filled, worst, used, Slippage(buying, vwap, touch), remaining > 0.0));
  }

  // ---------------------------------------------------------------- what a walk takes

  /** Filled is what was asked for, or all there is. */
  lemma {:induction false} TakenIsLess(levels: seq<Level>, qty: real)
    requires Sized(levels)
    ensures Taken(levels, qty) == (if qty <= 0.0 then 0.0 else RMin(qty, Depth(levels))) && Depth(levels) >= 0.0
    decreases |levels|
  {
    if levels != [] {
      TakenIsLess(levels[1..], qty - RMin(qty, levels[0].qty));
      TakenIsLess(levels[1..], 1.0);
    }
  }

  /** The levels get no cheaper as the walk goes on. */
  ghost predicate Rising(levels: seq<Level>) { forall i, j :: 0 <= i < j < |levels| ==> levels[i].px <= levels[j].px }

  /** Between the quantities a and b the walk pays at least p for each unit more, from a level at p on. */
  lemma {:induction false} SlopeAtLeast(levels: seq<Level>, a: real, b: real, p: real)
    requires Sized(levels) && Rising(levels) && a <= b && (forall i :: 0 <= i < |levels| ==> p <= levels[i].px)
    ensures Notional(levels, b) - Notional(levels, a) >= Times(p, Taken(levels, b) - Taken(levels, a))
    ensures Taken(levels, a) <= Taken(levels, b)
    decreases |levels|
  {
    hide Times;
    if levels != [] && b > 0.0 {
      hide Taken, Notional, Rising;
      var l, rest := levels[0], levels[1..];
      var ta, tb := First(l, a), First(l, b);
      RestRises(levels);
      SlopeAtLeast(rest, a - ta, b - tb, p);
      StepLots(levels, a);
      StepLots(levels, b);
      TimesOrders(p, l.px, tb - ta);
      TimesSum(tb, ta, l.px);
      TimesSum(tb - ta, Taken(rest, b - tb) - Taken(rest, a - ta), p);
      assert Taken(levels, b) - Taken(levels, a) == (tb - ta) + (Taken(rest, b - tb) - Taken(rest, a - ta));
    } else {
      NoWalk(levels, a);
      NoWalk(levels, b);
      TimesSum(0.0, 0.0, p);
    }
  }

  /** What a walk takes of its first level. */
  function First(l: Level, q: real): real { if q <= 0.0 then 0.0 else RMin(q, l.qty) }

  lemma RestRises(levels: seq<Level>)
    requires levels != [] && Rising(levels) && Sized(levels)
    ensures Rising(levels[1..]) && Sized(levels[1..])
  {
  }

  lemma StepLots(levels: seq<Level>, q: real)
    requires levels != []
    ensures Notional(levels, q)
      == Times(levels[0].px, First(levels[0], q)) + Notional(levels[1..], q - First(levels[0], q))
    ensures Taken(levels, q) == First(levels[0], q) + Taken(levels[1..], q - First(levels[0], q))
  {
  }

  /** The walk has paid no more than its last price for each unit, and the first no more than its last. */
  lemma {:induction false} WorstIsDearest(levels: seq<Level>, q: real, p: real)
    requires Sized(levels) && Rising(levels) && (forall i :: 0 <= i < |levels| ==> p <= levels[i].px)
    ensures var w := Worst(levels, q, p);
      && p <= w && Taken(levels, q) >= 0.0
      && Times(p, Taken(levels, q)) <= Notional(levels, q) <= Times(w, Taken(levels, q))
    decreases |levels|
  {
    hide Times;
    if levels != [] && q > 0.0 {
      hide Taken, Notional, Rising;
      var l, rest := levels[0], levels[1..];
      var t := First(l, q);
      AllAtLeast(levels);
      RestRises(levels);
      WorstIsDearest(rest, q - t, l.px);
      StepLots(levels, q);
      var w := Worst(levels, q, p);
      TimesOrders(l.px, w, t);
      TimesSum(t, Taken(rest, q - t), w);
      TimesOrders(p, l.px, t);
      TimesOrders(p, l.px, Taken(rest, q - t));
      TimesSum(t, Taken(rest, q - t), p);
    } else {
      NoWalk(levels, q);
      TimesSum(0.0, 0.0, p);
    }
  }

  lemma NoWalk(levels: seq<Level>, q: real)
    requires levels == [] || q <= 0.0
    ensures Taken(levels, q) == 0.0 == Notional(levels, q)
  {
  }

  lemma AllAtLeast(levels: seq<Level>)
    requires levels != [] && Rising(levels)
    ensures forall i :: 0 <= i < |levels[1..]| ==> levels[0].px <= levels[1..][i].px
  {
  }

  /** From where the walk for a ended, each unit more costs at least its last price. */
  lemma {:induction false} SlopeFromWorst(levels: seq<Level>, a: real, b: real, p: real)
    requires Sized(levels) && Rising(levels) && a <= b && (forall i :: 0 <= i < |levels| ==> p <= levels[i].px)
    ensures Notional(levels, b) - Notional(levels, a) >= Times(Worst(levels, a, p), Taken(levels, b) - Taken(levels, a))
    ensures Taken(levels, a) <= Taken(levels, b)
    decreases |levels|
  {
    hide Times;
    if levels == [] || a <= 0.0 {
      SlopeAtLeast(levels, a, b, p);
    } else {
      hide Taken, Notional, Rising;
      var l, rest := levels[0], levels[1..];
      var ta, tb := First(l, a), First(l, b);
      AllAtLeast(levels);
      RestRises(levels);
      SlopeFromWorst(rest, a - ta, b - tb, l.px);
      StepLots(levels, a);
      StepLots(levels, b);
      var w := Worst(levels, a, p);
      if ta != tb { assert w == l.px; }
      TimesSum(tb, ta, l.px);
      TimesSum(tb - ta, Taken(rest, b - tb) - Taken(rest, a - ta), w);
      TimesSum(0.0, 0.0, w);
      assert Taken(levels, b) - Taken(levels, a) == (tb - ta) + (Taken(rest, b - tb) - Taken(rest, a - ta));
    }
  }

  /** The walk's cost, level by level; and the price of the last level it used. */
  lemma WalkIs(levels: seq<Level>, qty: real)
    requires Sized(levels)
    ensures Notional(levels, qty) == Paid(levels, |levels|, qty)
    ensures forall n, px :: Used(levels, qty, n) ==> Worst(levels, qty, px) == levels[n - 1].px
  {
    hide Notional, Worst;
    assert levels[0..] == levels;
    WalkFrom(levels, 0, qty);
    forall n, px | Used(levels, qty, n) ensures Worst(levels, qty, px) == levels[n - 1].px {
      WorstFrom(levels, 0, qty, px, n);
    }
  }

  lemma {:induction false} QtyBeforeGrows(levels: seq<Level>, i: nat, j: nat)
    requires Sized(levels) && i <= j <= |levels|
    ensures QtyBefore(levels, i) <= QtyBefore(levels, j)
  {
    if i < j { QtyBeforeGrows(levels, i, j - 1); }
  }

  lemma {:induction false} PaidOut(levels: seq<Level>, k: nat, n: nat, qty: real)
    requires Sized(levels) && k <= n <= |levels| && qty <= QtyBefore(levels, k)
    ensures Paid(levels, n, qty) == Paid(levels, k, qty)
  {
    hide Times;
    if k < n {
      PaidOut(levels, k, n - 1, qty);
      QtyBeforeGrows(levels, k, n - 1);
      TimesSum(0.0, 0.0, levels[n - 1].px);
    }
  }

  lemma {:induction false} WalkFrom(levels: seq<Level>, k: nat, qty: real)
    requires Sized(levels) && k <= |levels|
    ensures Notional(levels[k..], qty - QtyBefore(levels, k)) == Paid(levels, |levels|, qty) - Paid(levels, k, qty)
    decreases |levels| - k
  {
    hide Times, Lot;
    if k == |levels| {
    } else if qty <= QtyBefore(levels, k) {
      PaidOut(levels, k, |levels|, qty);
    } else {
      WalkFrom(levels, k + 1, qty);
      var l, left := levels[k], qty - QtyBefore(levels, k);
      assert levels[k..][0] == l && levels[k..][1..] == levels[k + 1..];
      LotIs(l, left);
      if left < l.qty { NoNotional(levels[k + 1..], left - l.qty); }
    }
  }

  lemma LotIs(l: Level, qty: real)
    requires qty > 0.0 && l.qty > 0.0
    ensures Lot(l, qty) == Times(RMax(RMin(l.qty, qty), 0.0), l.px)
  {
  }

  lemma NoNotional(levels: seq<Level>, qty: real)
    requires qty <= 0.0
    ensures Notional(levels, qty) == 0.0 && Notional(levels, 0.0) == 0.0
  {
  }

  lemma {:induction false} WorstFrom(levels: seq<Level>, k: nat, qty: real, px: real, n: nat)
    requires Sized(levels) && k < n && Used(levels, qty, n)
    ensures Worst(levels[k..], qty - QtyBefore(levels, k), px) == levels[n - 1].px
    decreases n - k
  {
    QtyBeforeGrows(levels, k, n - 1);
    var l, left := levels[k], qty - QtyBefore(levels, k);
    assert levels[k..][0] == l && levels[k..][1..] == levels[k + 1..];
    if k + 1 < n {
      QtyBeforeGrows(levels, k + 1, n - 1);
      WorstFrom(levels, k + 1, qty, l.px, n);
    }
  }

  // ---------------------------------------------------------------- larger quantities, worse prices

  lemma AverageBounds(n: real, f: real, w: real)
    requires f > 0.0
    ensures Average(n, f) <= w <==> n <= Times(w, f)
    ensures w <= Average(n, f) <==> Times(w, f) <= n
  {
    var x := Average(n, f);
    assert Times(x, f) == n;
    TimesOrders(x, w, f);
    TimesOrders(w, x, f);
  }

  function VwapOf(levels: seq<Level>, qty: real): real
    requires Taken(levels, qty) != 0.0
  {
    Average(Notional(levels, qty), Taken(levels, qty))
  }

  /** Lifting asks: the average lies between the touch and the last price, and grows with the quantity. */
  lemma AsksWorsen(asks: seq<Level>, a: real, b: real)
    requires Sized(asks) && Rising(asks) && asks != [] && 0.0 < a <= b
    ensures 0.0 < Taken(asks, a) <= Taken(asks, b)
    ensures asks[0].px <= VwapOf(asks, a) <= Worst(asks, a, asks[0].px) && VwapOf(asks, a) <= VwapOf(asks, b)
  {
    hide Times, Average, Notional, Rising;
    RisesFrom(asks);
    TakenIsLess(asks, a);
    TakenIsLess(asks, b);
    DepthPositive(asks);
    var touch := asks[0].px;
    WorstIsDearest(asks, a, touch);
    SlopeFromWorst(asks, a, b, touch);
    var w, fa, fb, v := Worst(asks, a, touch), Taken(asks, a), Taken(asks, b), VwapOf(asks, a);
    AverageBounds(Notional(asks, a), fa, w);
    AverageBounds(Notional(asks, a), fa, touch);
    AverageBounds(Notional(asks, a), fa, v);
    AverageBounds(Notional(asks, b), fb, v);
    TimesOrders(v, w, fb - fa);
    TimesSum(fa, fb - fa, v);
    assert fa + (fb - fa) == fb;
  }

  lemma RisesFrom(levels: seq<Level>)
    requires levels != [] && Rising(levels)
    ensures forall i :: 0 <= i < |levels| ==> levels[0].px <= levels[i].px
  {
  }

  lemma DepthPositive(levels: seq<Level>)
    requires Sized(levels) && levels != []
    ensures Depth(levels) > 0.0
  {
    TakenIsLess(levels[1..], 1.0);
  }

  // ---------------------------------------------------------------- bids mirror asks

  /** The same levels at negated prices. */
  function Mirror(levels: seq<Level>): seq<Level>
    decreases |levels|
  {
    if levels == [] then [] else [Level(-levels[0].px, levels[0].qty)] + Mirror(levels[1..])
  }

  lemma {:induction false} MirrorAt(levels: seq<Level>)
    ensures |Mirror(levels)| == |levels|
    ensures forall i :: 0 <= i < |levels| ==> Mirror(levels)[i] == Level(-levels[i].px, levels[i].qty)
    decreases |levels|
  {
    if levels != [] { MirrorAt(levels[1..]); }
  }

  lemma {:induction false} MirrorWalks(levels: seq<Level>, qty: real, px: real)
    ensures Taken(Mirror(levels), qty) == Taken(levels, qty)
    ensures Notional(Mirror(levels), qty) == -Notional(levels, qty)
    ensures Worst(Mirror(levels), qty, -px) == -Worst(levels, qty, px)
    decreases |levels|
  {
    hide Times;
    if levels == [] || qty <= 0.0 {
    } else {
      hide Taken, Notional, Worst;
      var l, rest := levels[0], levels[1..];
      var m := Mirror(levels);
      assert m[0] == Level(-l.px, l.qty) && m[1..] == Mirror(rest);
      MirrorWalks(rest, qty - First(l, qty), l.px);
      StepLots(levels, qty);
      StepLots(m, qty);
      TimesSum(l.px, 0.0, First(l, qty));
      StepWorst(levels, qty, px);
      StepWorst(m, qty, -px);
    }
  }

  lemma StepWorst(levels: seq<Level>, qty: real, px: real)
    requires levels != [] && qty > 0.0
    ensures Worst(levels, qty, px) == Worst(levels[1..], qty - First(levels[0], qty), levels[0].px)
  {
  }

  /** The levels get no dearer as the walk goes on. */
  ghost predicate Falling(levels: seq<Level>) { forall i, j :: 0 <= i < j < |levels| ==> levels[i].px >= levels[j].px }

  /** Hitting bids: the average lies between the last price and the touch, and falls with the quantity. */
  lemma BidsWorsen(bids: seq<Level>, a: real, b: real)
    requires Sized(bids) && Falling(bids) && bids != [] && 0.0 < a <= b
    ensures 0.0 < Taken(bids, a) <= Taken(bids, b)
    ensures Worst(bids, a, bids[0].px) <= VwapOf(bids, a) <= bids[0].px && VwapOf(bids, b) <= VwapOf(bids, a)
  {
    hide Average, Notional, Taken, Worst;
    var m := Mirror(bids);
    MirrorAt(bids);
    AsksWorsen(m, a, b);
    MirrorWalks(bids, a, bids[0].px);
    MirrorWalks(bids, b, bids[0].px);
    AverageNegated(Notional(bids, a), Taken(bids, a));
    AverageNegated(Notional(bids, b), Taken(bids, b));
  }

  lemma AverageNegated(n: real, f: real)
    requires f > 0.0
    ensures Average(-n, f) == -Average(n, f)
  {
  }

  /** A side as the book builds it is in order, at positive prices and quantities. */
  lemma BuiltSolid(descending: bool, rows: seq<Level>, side: seq<Level>)
    requires Best(descending, rows, side)
    ensures Solid(side) && Ordered(descending, side)
  {
  }

  /** A side in book order walks the right way. */
  lemma BookOrderWalks(descending: bool, side: seq<Level>)
    requires Ordered(descending, side)
    ensures if descending then Falling(side) else Rising(side)
  {
  }

  /** The slippage of what a walk of an ordered side pays is never negative. */
  lemma SlippageNotNegative(buying: bool, levels: seq<Level>, qty: real)
    requires Solid(levels) && Ordered(!buying, levels) && levels != [] && qty > 0.0
    ensures Taken(levels, qty) > 0.0 && Slippage(buying, VwapOf(levels, qty), levels[0].px) >= 0.0
  {
    hide Average, Notional, Taken, Worst;
    BookOrderWalks(!buying, levels);
    if buying {
      AsksWorsen(levels, qty, qty);
      NotNegative(VwapOf(levels, qty) - levels[0].px, levels[0].px);
    } else {
      BidsWorsen(levels, qty, qty);
      NotNegative(levels[0].px - VwapOf(levels, qty), levels[0].px);
    }
  }

  lemma NotNegative(x: real, y: real)
    requires x >= 0.0 && y > 0.0
    ensures x / y >= 0.0
  {
  }
}

/**
 Execution economics of one obligation's fills (LIGHTER_ASTER_BOT/src/live_report.rs, economics.py): each
 venue's fills run through an averaged position, whose realized closes plus the spread on opposite
 remaining positions are the gross result.
 */
module Economics {
  import opened Common
  import opened Reals
  import opened Sums

  datatype Venue = Aster | Lighter

  datatype Fill = Fill(
    venue: Venue, side: Side, qty: real, quote: Option<real>, fee: Option<real>, at: Option<int>, ordinal: nat,
    attempt: string, clientId: Option<string>, orderId: Option<string>)

  datatype Position = Position(
    qty: real, average: real, realized: real, volume: real, quote: real, fee: real, priceUnknown: bool,
    feeUnknown: bool)

  const FLAT := Position(0.0, 0.0, 0.0, 0.0, 0.0, 0.0, false, false)

  function Known(x: Option<real>): real { if x.Some? then x.value else 0.0 }

  function Delta(f: Fill): real { if f.side == Buy then f.qty else -f.qty }

  /** The average after adding `quote` worth of `qty` to `held` at `average`. */
  function Blend(held: real, average: real, quote: real, qty: real): real
    requires held + qty != 0.0
  {
    (held * average + quote) / (held + qty)
  }

  function Price(f: Fill): real
    requires f.qty != 0.0
  {
    Known(f.quote) / f.qty
  }

  /** What closing `closed` of a position at `price` realizes. */
  function Closing(held: real, average: real, closed: real, price: real): real {
    if held > 0.0 then closed * (price - average) else -(closed * (price - average))
  }

  function Apply(p: Position, f: Fill): Position
    requires f.qty >= 0.0
  {
    var held := p.qty;
    var r := p.(volume := p.volume + f.qty, quote := p.quote + Known(f.quote), fee := p.fee + Known(f.fee),
                feeUnknown := p.feeUnknown || f.fee.None?, qty := held + Delta(f));
    if f.qty == 0.0 then r
    else if f.quote.None? then r.(priceUnknown := true)
    else if held == 0.0 || (held > 0.0) == (Delta(f) > 0.0) then
      r.(average := Blend(RAbs(held), p.average, f.quote.value, f.qty))
    else
      var r := r.(realized := p.realized + Closing(held, p.average, RMin(RAbs(held), f.qty), Price(f)));
      if r.qty == 0.0 then r.(average := 0.0)
      else if (r.qty > 0.0) != (held > 0.0) then r.(average := Price(f))
      else r
  }

  predicate Valid(fills: seq<Fill>) { forall i :: 0 <= i < |fills| ==> fills[i].qty >= 0.0 }

  /** One venue's position after these fills. */
  function PositionOf(fills: seq<Fill>, venue: Venue): Position
    requires Valid(fills)
  {
    if fills == [] then FLAT
    else
      var p, f := PositionOf(fills[..|fills| - 1], venue), fills[|fills| - 1];
      if f.venue == venue then Apply(p, f) else p
  }

  datatype Summary = Summary(
    gross: Option<real>, realized: real, spread: real, fees: Option<real>, net: Option<real>, matched: real,
    residual: real)

  predicate Opposed(a: Position, l: Position) {
    a.qty != 0.0 && l.qty != 0.0 && (a.qty > 0.0) != (l.qty > 0.0)
  }

  /** The spread on the matched part of two opposite positions. */
  function Spread(a: Position, l: Position): real {
    var pnl := RMin(RAbs(a.qty), RAbs(l.qty)) * (l.average - a.average);
    if !Opposed(a, l) then 0.0 else if a.qty > 0.0 then pnl else -pnl
  }

  function Calculate(a: Position, l: Position): Summary {
    var realized, spread := a.realized + l.realized, Spread(a, l);
    var gross := if a.priceUnknown || l.priceUnknown then None else Some(realized + spread);
    var fees := if a.feeUnknown || l.feeUnknown then None else Some(a.fee + l.fee);
    Summary(gross, realized, spread, fees,
            if gross.Some? && fees.Some? then Some(gross.value - fees.value) else None,
            if Opposed(a, l) then RMin(RAbs(a.qty), RAbs(l.qty)) else 0.0, a.qty + l.qty)
  }

  function Account(fills: seq<Fill>): Summary
    requires Valid(fills)
  {
    Calculate(PositionOf(fills, Aster), PositionOf(fills, Lighter))
  }

  // ---------------------------------------------------------------- cash

  /** What a fill pays in (a sell) or out (a buy). */
  function Cash(f: Fill): real { if f.side == Sell then Known(f.quote) else -Known(f.quote) }

  /** The quotes of fills without a quantity, which no position can carry. */
  function Idle(f: Fill): real { if f.qty == 0.0 then Cash(f) else 0.0 }

  function Traded(f: Fill): real { if f.qty == 0.0 then 0.0 else Cash(f) }

  function On(venue: Venue, w: Fill -> real): Fill -> real { (f: Fill) => if f.venue == venue then w(f) else 0.0 }

  predicate Priced(fills: seq<Fill>) { forall i :: 0 <= i < |fills| ==> fills[i].qty == 0.0 || fills[i].quote.Some? }

  /** What a position has taken in, counting what it holds at its average. */
  function Worth(p: Position): real { p.realized - p.qty * p.average }

  lemma Blended(held: real, average: real, quote: real, qty: real)
    requires held + qty != 0.0
    ensures (held + qty) * Blend(held, average, quote, qty) == held * average + quote
  {
  }

  lemma PriceTimesQty(f: Fill)
    requires f.qty != 0.0
    ensures f.qty * Price(f) == Known(f.quote)
  {
  }

  /** Opening, adding, closing or flipping: what a position is worth changes by the fill's cash. */
  lemma ApplyMovesCash(p: Position, f: Fill)
    requires f.qty > 0.0 && f.quote.Some?
    ensures Worth(Apply(p, f)) == Worth(p) + Cash(f)
  {
    hide Blend, Price;
    var held, avg, px := p.qty, p.average, Price(f);
    PriceTimesQty(f);
    if held == 0.0 || (held > 0.0) == (Delta(f) > 0.0) {
      Blended(RAbs(held), avg, f.quote.value, f.qty);
      var blend := Blend(RAbs(held), avg, f.quote.value, f.qty);
      ProductSum(RAbs(held), f.qty, blend);
      ProductSum(held, 0.0, avg);
      if Delta(f) < 0.0 {
        ProductSum(RAbs(held) + f.qty, 0.0, blend);
        ProductSum(RAbs(held), 0.0, avg);
        assert held + Delta(f) == -(RAbs(held) + f.qty);
      }
    } else {
      var closed := RMin(RAbs(held), f.qty);
      ProductSum(px, avg, closed);
      if closed == f.qty {
        ProductSum(held, f.qty, avg);
      } else {
        ProductSum(held, f.qty, px);
        ProductSum(held, 0.0, px);
        ProductSum(held, 0.0, avg);
      }
    }
  }

  lemma {:induction false} WorthIsCash(fills: seq<Fill>, venue: Venue)
    requires Valid(fills) && Priced(fills)
    ensures Worth(PositionOf(fills, venue)) == Sum(fills, On(venue, Traded)) && !PositionOf(fills, venue).priceUnknown
  {
    hide Worth, Apply;
    if fills == [] {
      NoWorth();
    } else {
      var init, f := fills[..|fills| - 1], fills[|fills| - 1];
      WorthIsCash(init, venue);
      if f.venue == venue {
        var p := PositionOf(init, venue);
        assert On(venue, Traded)(f) == Traded(f);
        if f.qty > 0.0 { ApplyMovesCash(p, f); } else { IdleApplies(p, f); }
        StaysPriced(p, f);
      }
    }
  }

  lemma NoWorth()
    ensures Worth(FLAT) == 0.0
  {
  }

  lemma IdleApplies(p: Position, f: Fill)
    requires f.qty == 0.0
    ensures Worth(Apply(p, f)) == Worth(p)
  {
  }

  lemma StaysPriced(p: Position, f: Fill)
    requires f.qty >= 0.0
    ensures Apply(p, f).priceUnknown == (p.priceUnknown || (f.qty > 0.0 && f.quote.None?))
    ensures Apply(p, f).qty == p.qty + Delta(f)
  {
  }

  lemma {:induction false} QtyIsSum(fills: seq<Fill>, venue: Venue)
    requires Valid(fills)
    ensures PositionOf(fills, venue).qty == Sum(fills, On(venue, Delta))
  {
    hide Apply;
    if fills != [] {
      var init, f := fills[..|fills| - 1], fills[|fills| - 1];
      QtyIsSum(init, venue);
      if f.venue == venue { StaysPriced(PositionOf(init, venue), f); }
    }
  }

  lemma {:induction false} SumSplits(fills: seq<Fill>)
    ensures Sum(fills, On(Aster, Traded)) + Sum(fills, On(Lighter, Traded)) == Sum(fills, Cash) - Sum(fills, Idle)
  {
    if fills != [] {
      var f := fills[|fills| - 1];
      SumSplits(fills[..|fills| - 1]);
      assert f.venue == Aster || f.venue == Lighter;
      assert On(Aster, Traded)(f) + On(Lighter, Traded)(f) == Traded(f);
      assert Traded(f) == Cash(f) - Idle(f);
    }
  }

  lemma {:induction false} PriceUnknownIs(fills: seq<Fill>, venue: Venue)
    requires Valid(fills)
    ensures PositionOf(fills, venue).priceUnknown
      <==> exists i :: 0 <= i < |fills| && fills[i].venue == venue && fills[i].qty > 0.0 && fills[i].quote.None?
  {
    hide Apply;
    if fills != [] {
      var init, f := fills[..|fills| - 1], fills[|fills| - 1];
      PriceUnknownIs(init, venue);
      if f.venue == venue { StaysPriced(PositionOf(init, venue), f); }
      assert forall i :: 0 <= i < |init| ==> init[i] == fills[i];
    }
  }

  /** Gross is reported exactly when every fill that moved a quantity has a price. */
  lemma GrossKnown(fills: seq<Fill>)
    requires Valid(fills)
    ensures Account(fills).gross.Some? <==> Priced(fills)
  {
    hide PositionOf, Spread;
    PriceUnknownIs(fills, Aster);
    PriceUnknownIs(fills, Lighter);
    forall i | 0 <= i < |fills| ensures fills[i].venue == Aster || fills[i].venue == Lighter { }
  }

  /** What is left when two venues' worths are added: gross, less the residual at its holder's average. */
  lemma GrossOfWorths(a: Position, l: Position)
    requires a.qty + l.qty == 0.0
    ensures a.realized + l.realized + Spread(a, l) == Worth(a) + Worth(l)
  {
    assert l.qty == -a.qty;
    ProductSum(a.qty, 0.0, l.average);
    ProductSum(a.qty, 0.0, a.average);
    if a.qty > 0.0 {
      ProductSum(l.average, a.average, a.qty);
      assert Spread(a, l) == a.qty * (l.average - a.average);
    } else if a.qty < 0.0 {
      ProductSum(l.average, a.average, l.qty);
      assert Spread(a, l) == -(l.qty * (l.average - a.average));
    }
  }

  /**
   Gross is cash: with every price known and the two positions summing to zero, gross is what the sells
   brought in less what the buys paid, but for the quotes of fills without a quantity. It equals the cash
   exactly when those cancel.
   */
  lemma GrossIsCash(fills: seq<Fill>)
    requires Valid(fills) && Priced(fills) && Account(fills).residual == 0.0
    ensures Account(fills).gross == Some(Sum(fills, Cash) - Sum(fills, Idle))
    ensures Account(fills).gross == Some(Sum(fills, Cash)) <==> Sum(fills, Idle) == 0.0
  {
    hide Worth, Spread, Sum, PositionOf, Valid, Priced, On, Traded, Idle, Cash;
    WorthIsCash(fills, Aster);
    WorthIsCash(fills, Lighter);
    SumSplits(fills);
    GrossOfWorths(PositionOf(fills, Aster), PositionOf(fills, Lighter));
  }

  /** Beside a trade at one price on both venues, a fill without a quantity but with a quote: it never reaches gross. */
  lemma IdleQuoteLost() returns (fills: seq<Fill>)
    ensures Valid(fills) && Priced(fills) && Account(fills).residual == 0.0
    ensures exists i :: 0 <= i < |fills| && fills[i].qty > 0.0
    ensures Account(fills).gross == Some(0.0) && Sum(fills, Cash) == 5.0
  {
    hide PositionOf, Sum, Spread, Apply;
    var bought := Fill(Aster, Buy, 1.0, Some(10.0), None, None, 0, "", None, None);
    var sold := Fill(Lighter, Sell, 1.0, Some(10.0), None, None, 1, "", None, None);
    var idle := Fill(Aster, Sell, 0.0, Some(5.0), None, None, 2, "", None, None);
    fills := [bought, sold, idle];
    assert fills[0].qty > 0.0;
    QtyIsSum(fills, Aster);
    QtyIsSum(fills, Lighter);
    ThreeSum(bought, sold, idle, On(Aster, Delta));
    ThreeSum(bought, sold, idle, On(Lighter, Delta));
    ThreeSum(bought, sold, idle, Cash);
    ThreeSum(bought, sold, idle, Idle);
    assert Delta(bought) == 1.0 && Delta(sold) == -1.0 && Delta(idle) == 0.0;
    assert PositionOf(fills, Aster).qty == 1.0 && PositionOf(fills, Lighter).qty == -1.0;
    GrossIsCash(fills);
  }

  lemma ThreeSum(f: Fill, g: Fill, h: Fill, w: Fill -> real)
    ensures Sum([f, g, h], w) == w(f) + w(g) + w(h)
  {
    SumNext([], f, w);
    SumNext([f], g, w);
    SumNext([f, g], h, w);
    assert [] + [f] == [f] && [f] + [g] == [f, g] && [f, g] + [h] == [f, g, h];
  }

  // ---------------------------------------------------------------- the other sums

  function QtyOf(f: Fill): real { f.qty }

  function QuoteOf(f: Fill): real { if f.quote.Some? then f.quote.value else 0.0 }

  function FeeOf(f: Fill): real { if f.fee.Some? then f.fee.value else 0.0 }

  ghost predicate FeesKnown(fills: seq<Fill>) { forall i :: 0 <= i < |fills| ==> fills[i].fee.Some? }

  /** A venue's volume, quote and fees are the sums over its fills, what is not known left out. */
  lemma {:induction false} TotalsAre(fills: seq<Fill>, venue: Venue)
    requires Valid(fills)
    ensures var p := PositionOf(fills, venue);
      && p.volume == Sum(fills, On(venue, QtyOf)) && p.quote == Sum(fills, On(venue, QuoteOf))
      && p.fee == Sum(fills, On(venue, FeeOf))
      && (p.feeUnknown <==> exists i :: 0 <= i < |fills| && fills[i].venue == venue && fills[i].fee.None?)
  {
    hide Apply;
    if fills != [] {
      var init, f := fills[..|fills| - 1], fills[|fills| - 1];
      TotalsAre(init, venue);
      AppliesTotals(PositionOf(init, venue), f);
      assert On(venue, QtyOf)(f) == if f.venue == venue then QtyOf(f) else 0.0;
      assert On(venue, QuoteOf)(f) == if f.venue == venue then QuoteOf(f) else 0.0;
      assert On(venue, FeeOf)(f) == if f.venue == venue then FeeOf(f) else 0.0;
      assert forall i :: 0 <= i < |init| ==> init[i] == fills[i];
    }
  }

  lemma AppliesTotals(p: Position, f: Fill)
    requires f.qty >= 0.0
    ensures var q := Apply(p, f);
      && q.volume == p.volume + f.qty && q.quote == p.quote + QuoteOf(f) && q.fee == p.fee + FeeOf(f)
      && q.feeUnknown == (p.feeUnknown || f.fee.None?)
  {
  }

  /** The bought less the sold of a venue. */
  function Held(fills: seq<Fill>, venue: Venue): real { Sum(fills, On(venue, Delta)) }

  /**
   An account's other columns: fees exactly when every fill's is known, net as gross less fees, the matched
   part of opposite holdings, and the residual of both.
   */
  lemma AccountSays(fills: seq<Fill>)
    requires Valid(fills)
    ensures var s := Account(fills); var a, l := Held(fills, Aster), Held(fills, Lighter);
      && s.fees == (if FeesKnown(fills) then Some(Sum(fills, FeeOf)) else None)
      && s.net == (if s.gross.Some? && s.fees.Some? then Some(s.gross.value - s.fees.value) else None)
      && s.matched == (if a > 0.0 && l < 0.0 then RMin(a, -l) else if a < 0.0 && l > 0.0 then RMin(-a, l) else 0.0)
      && s.residual == a + l
      && (s.gross.Some? ==> s.gross.value == s.realized + s.spread)
      && s.realized == PositionOf(fills, Aster).realized + PositionOf(fills, Lighter).realized
  {
    hide PositionOf, Spread, On, Sum;
    TotalsAre(fills, Aster);
    TotalsAre(fills, Lighter);
    QtyIsSum(fills, Aster);
    QtyIsSum(fills, Lighter);
    BothVenues(fills, FeeOf);
    forall i | 0 <= i < |fills| ensures fills[i].venue == Aster || fills[i].venue == Lighter { }
  }

  lemma {:induction false} BothVenues(fills: seq<Fill>, w: Fill -> real)
    ensures Sum(fills, w) == Sum(fills, On(Aster, w)) + Sum(fills, On(Lighter, w))
  {
    if fills != [] {
      BothVenues(fills[..|fills| - 1], w);
      var f := fills[|fills| - 1];
      assert f.venue == Aster || f.venue == Lighter;
    }
  }

  // ---------------------------------------------------------------- the order of the fills

  lemma {:induction false} SumWithout(fills: seq<Fill>, i: nat, w: Fill -> real)
    requires i < |fills|
    ensures Sum(fills, w) == Sum(fills[..i] + fills[i + 1..], w) + w(fills[i])
  {
    var n := |fills| - 1;
    if i == n {
      assert fills[..i] + fills[i + 1..] == fills[..n];
    } else {
      SumWithout(fills[..n], i, w);
      var rest := fills[..i] + fills[i + 1..];
      assert rest[..|rest| - 1] == fills[..n][..i] + fills[..n][i + 1..];
      assert rest[|rest| - 1] == fills[n];
    }
  }

  lemma {:induction false} SumAnyOrder(a: seq<Fill>, b: seq<Fill>, w: Fill -> real)
    requires multiset(a) == multiset(b)
    ensures Sum(a, w) == Sum(b, w)
    decreases |a|
  {
    hide Sum;
    if a == [] {
      assert |multiset(b)| == 0;
    } else {
      var n := |a| - 1;
      Without(a, n);
      assert a[..n] + a[n + 1..] == a[..n];
      assert a[n] in multiset(b);
      var i :| 0 <= i < |b| && b[i] == a[n];
      Without(b, i);
      SumAnyOrder(a[..n], b[..i] + b[i + 1..], w);
      SumWithout(a, n, w);
      SumWithout(b, i, w);
    }
  }

  lemma Without(fills: seq<Fill>, i: nat)
    requires i < |fills|
    ensures multiset(fills[..i] + fills[i + 1..]) == multiset(fills) - multiset{fills[i]}
  {
    assert fills == fills[..i] + [fills[i]] + fills[i + 1..];
  }

  lemma SameFills(a: seq<Fill>, b: seq<Fill>)
    requires multiset(a) == multiset(b)
    ensures Valid(a) ==> Valid(b)
    ensures Priced(a) ==> Priced(b)
  {
    forall i | 0 <= i < |b| ensures b[i] in a { assert b[i] in multiset(b); }
  }

  /** Gross does not depend on the order in which a flat pair of positions was filled. */
  lemma GrossAnyOrder(a: seq<Fill>, b: seq<Fill>)
    requires multiset(a) == multiset(b) && Valid(a) && Priced(a) && Account(a).residual == 0.0
    ensures Valid(b) && Account(b).residual == 0.0 && Account(b).gross == Account(a).gross
  {
    hide Sum;
    SameFills(a, b);
    QtyIsSum(a, Aster);
    QtyIsSum(b, Aster);
    QtyIsSum(a, Lighter);
    QtyIsSum(b, Lighter);
    SumAnyOrder(a, b, On(Aster, Delta));
    SumAnyOrder(a, b, On(Lighter, Delta));
    SumAnyOrder(a, b, Cash);
    SumAnyOrder(a, b, Idle);
    GrossIsCash(a);
    GrossIsCash(b);
  }

  // ---------------------------------------------------------------- the second implementation

  /** economics.py's state of one venue. */
  datatype State = State(
    qty: real, avg: real, realized: real, volume: real, quote: real, fee: real, pricesComplete: bool,
    feesComplete: bool)

  function Sign(positive: bool): real { if positive then 1.0 else -1.0 }

  function PyAverage(held: real, avg: real, quote: real, qty: real): real
    requires held + qty != 0.0
  {
    (held * avg + quote) / (held + qty)
  }

  function PyClose(closed: real, px: real, avg: real, long: bool): real { closed * (px - avg) * Sign(long) }

  function PyApply(st: State, f: Fill): State
    requires f.qty >= 0.0
  {
    var delta, held := if f.side == Buy then f.qty else -f.qty, st.qty;
    var r := st.(volume := st.volume + f.qty, quote := st.quote + Known(f.quote), fee := st.fee + Known(f.fee),
                 feesComplete := st.feesComplete && f.fee.Some?, qty := held + delta);
    if f.qty == 0.0 then r
    else if f.quote.None? then r.(pricesComplete := false)
    else
      var px := f.quote.value / f.qty;
      if held == 0.0 || (held > 0.0) == (delta > 0.0) then
        r.(avg := PyAverage(RAbs(held), st.avg, f.quote.value, f.qty))
      else
        var r := r.(realized := st.realized + PyClose(RMin(RAbs(held), f.qty), px, st.avg, held > 0.0));
        if r.qty == 0.0 then r.(avg := 0.0) else if (r.qty > 0.0) != (held > 0.0) then r.(avg := px) else r
  }

  function PyState(fills: seq<Fill>, venue: Venue): State
    requires Valid(fills)
  {
    if fills == [] then State(0.0, 0.0, 0.0, 0.0, 0.0, 0.0, true, true)
    else
      var st, f := PyState(fills[..|fills| - 1], venue), fills[|fills| - 1];
      if f.venue == venue then PyApply(st, f) else st
  }

  function PyCalculate(a: State, h: State): Summary {
    var opposite := a.qty * h.qty < 0.0;
    var matched := if opposite then RMin(RAbs(a.qty), RAbs(h.qty)) else 0.0;
    var realized := a.realized + h.realized;
    var spread := if opposite then matched * (h.avg - a.avg) * Sign(a.qty > 0.0) else 0.0;
    var gross := if a.pricesComplete && h.pricesComplete then Some(realized + spread) else None;
    var fees := if a.feesComplete && h.feesComplete then Some(a.fee + h.fee) else None;
    Summary(gross, realized, spread, fees,
            if gross.Some? && fees.Some? then Some(gross.value - fees.value) else None, matched, a.qty + h.qty)
  }

  function PyAccount(fills: seq<Fill>): Summary
    requires Valid(fills)
  {
    PyCalculate(PyState(fills, Aster), PyState(fills, Lighter))
  }

  /** The same state in the other's fields. */
  function AsState(p: Position): State {
    State(p.qty, p.average, p.realized, p.volume, p.quote, p.fee, !p.priceUnknown, !p.feeUnknown)
  }

  lemma {:induction false} StatesAgree(fills: seq<Fill>, venue: Venue)
    requires Valid(fills)
    ensures PyState(fills, venue) == AsState(PositionOf(fills, venue))
  {
    if fills != [] {
      StatesAgree(fills[..|fills| - 1], venue);
      ApplyAgrees(PositionOf(fills[..|fills| - 1], venue), fills[|fills| - 1]);
    }
  }

  lemma ApplyAgrees(p: Position, f: Fill)
    requires f.qty >= 0.0
    ensures PyApply(AsState(p), f) == AsState(Apply(p, f))
  {
    hide PyAverage, PyClose, Closing, Blend;
    if f.qty > 0.0 && f.quote.Some? {
      AveragesAgree(RAbs(p.qty), p.average, f.quote.value, f.qty);
      ClosesAgree(p.qty, p.average, RMin(RAbs(p.qty), f.qty), Price(f));
    }
  }

  lemma AveragesAgree(held: real, average: real, quote: real, qty: real)
    requires held + qty != 0.0
    ensures PyAverage(held, average, quote, qty) == Blend(held, average, quote, qty)
  {
  }

  lemma ClosesAgree(held: real, average: real, closed: real, px: real)
    ensures PyClose(closed, px, average, held > 0.0) == Closing(held, average, closed, px)
  {
    var x := closed * (px - average);
    assert x * 1.0 == x && x * -1.0 == -x;
  }

  /** Both implementations give the same account of the same fills in the same order. */
  lemma ImplementationsAgree(fills: seq<Fill>)
    requires Valid(fills)
    ensures PyAccount(fills) == Account(fills)
  {
    hide PyApply, Apply, PyCalculate, Calculate;
    StatesAgree(fills, Aster);
    StatesAgree(fills, Lighter);
    CalculationsAgree(PositionOf(fills, Aster), PositionOf(fills, Lighter));
  }

  lemma CalculationsAgree(a: Position, l: Position)
    ensures PyCalculate(AsState(a), AsState(l)) == Calculate(a, l)
  {
    hide Sign;
    OppositeSigns(a.qty, l.qty);
    SignedSpread(RMin(RAbs(a.qty), RAbs(l.qty)), l.average - a.average, a.qty > 0.0);
    var py, rs := PyCalculate(AsState(a), AsState(l)), Calculate(a, l);
    assert py.spread == rs.spread && py.realized == rs.realized && py.matched == rs.matched;
  }

  lemma SignedSpread(matched: real, difference: real, positive: bool)
    ensures matched * difference * Sign(positive) == if positive then matched * difference else -(matched * difference)
  {
  }

  lemma OppositeSigns(x: real, y: real)
    ensures x * y < 0.0 <==> x != 0.0 && y != 0.0 && (x > 0.0) != (y > 0.0)
  {
    if x > 0.0 {
      SignBy(y, x);
    } else if x < 0.0 {
      SignBy(y, -x);
      ProductSum(x, 0.0, y);
    }
  }

  /** A product with a positive factor has the other's sign. */
  lemma SignBy(x: real, k: real)
    requires k > 0.0
    ensures (k * x > 0.0 <==> x > 0.0) && (k * x < 0.0 <==> x < 0.0)
  {
    ProductGrows(x, 0.0, k);
    ProductGrows(0.0, x, k);
    assert x * k == k * x;
  }

  /** And, with the positions flat, the same gross however each of them orders the fills. */
  lemma ImplementationsAgreeAnyOrder(a: seq<Fill>, b: seq<Fill>)
    requires multiset(a) == multiset(b) && Valid(a) && Priced(a) && Account(a).residual == 0.0
    ensures Valid(b) && PyAccount(b).gross == Account(a).gross
  {
    GrossAnyOrder(a, b);
    ImplementationsAgree(b);
  }

  // ---------------------------------------------------------------- as they run

  /** The position `apply` updates in place. */
  class Book {
    var qty: real
    var average: real
    var realized: real
    var volume: real
    var quote: real
    var fee: real
    var priceUnknown: bool
    var feeUnknown: bool

    function View(): Position
      reads this
    {
      Position(qty, average, realized, volume, quote, fee, priceUnknown, feeUnknown)
    }

    constructor ()
      ensures View() == FLAT
    {
      qty, average, realized, volume, quote, fee := 0.0, 0.0, 0.0, 0.0, 0.0, 0.0;
      priceUnknown, feeUnknown := false, false;
    }

    method Take(f: Fill)
      requires f.qty >= 0.0
      modifies this
      ensures View() == Apply(old(View()), f)
    {
      hide Blend, Price, Closing;
      volume := volume + f.qty;
      quote := quote + Known(f.quote);
      if f.fee.Some? { fee := fee + f.fee.value; } else { feeUnknown := true; }
      var held := qty;
      qty := held + Delta(f);
      if f.qty == 0.0 { return; }
      if f.quote.None? {
        priceUnknown := true;
        return;
      }
      if held == 0.0 || (held > 0.0) == (Delta(f) > 0.0) {
        average := Blend(RAbs(held), average, f.quote.value, f.qty);
      } else {
        realized := realized + Closing(held, average, RMin(RAbs(held), f.qty), Price(f));
        if qty == 0.0 {
          average := 0.0;
        } else if (qty > 0.0) != (held > 0.0) {
          average := Price(f);
        }
      }
    }
  }

  method Summarize(fills: seq<Fill>) returns (r: Summary)
    requires Valid(fills)
    ensures r == Account(fills)
  {
    hide Apply, Calculate;
    var aster := new Book();
    var lighter := new Book();
    var i := 0;
    while i < |fills|
      invariant 0 <= i <= |fills|
      invariant aster.View() == PositionOf(fills[..i], Aster) && lighter.View() == PositionOf(fills[..i], Lighter)
    {
      assert fills[..i + 1][..i] == fills[..i];
      if fills[i].venue == Aster { aster.Take(fills[i]); } else { lighter.Take(fills[i]); }
      i := i + 1;
    }
    assert fills[..i] == fills;
    r := Calculate(aster.View(), lighter.View());
  }
}

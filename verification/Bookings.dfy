/**
 What both simulations rest on (SCREENER/src/report.rs), said of the states themselves: the state in force
 at a time, the profit booked on a day, and the closing mark of a left-over position.
 */
module Bookings {
  import opened Common
  import opened Reals
  import opened Sums
  import opened Quotes
  import opened Report

  // ---------------------------------------------------------------- the state in force

  /** The i-th state is in force at `t`: the last one at or before it. */
  ghost predicate InForce(states: seq<State>, i: int, t: int) {
    0 <= i < |states| && states[i].t <= t && forall j :: i < j < |states| ==> states[j].t > t
  }

  /** A two-sided book at positive prices, not crossed. */
  predicate TwoSided(b: Bbo) { 0.0 < b.bid <= b.ask }

  /** At least `depth` of notional at a price; an infinite size holds any. */
  predicate Holds(px: real, size: Size, depth: real) { if size.Finite? then px * size.q >= depth else px > 0.0 }

  lemma {:induction false} StateAtIs(states: seq<State>, t: int) returns (i: int)
    ensures StateAt(states, t).None? ==> i == -1 && forall j :: 0 <= j < |states| ==> states[j].t > t
    ensures StateAt(states, t).Some? ==> InForce(states, i, t) && StateAt(states, t) == Some(states[i])
  {
    if states == [] {
      i := -1;
    } else if states[|states| - 1].t <= t {
      i := |states| - 1;
    } else {
      i := StateAtIs(states[..|states| - 1], t);
    }
  }

  lemma StateAtOnly(states: seq<State>, t: int)
    ensures forall k :: InForce(states, k, t) ==> StateAt(states, t) == Some(states[k])
  {
    var i := StateAtIs(states, t);
    forall k | InForce(states, k, t) ensures StateAt(states, t) == Some(states[k]) {
      if StateAt(states, t).Some? { InForceOnce(states, i, k, t); }
    }
  }

  lemma InForceOnce(states: seq<State>, i: int, j: int, t: int)
    requires InForce(states, i, t) && InForce(states, j, t)
    ensures i == j
  {
  }

  // ---------------------------------------------------------------- the better edge

  /** Both sides hold the depth the edge is executed on. */
  predicate Executable(s: State, buyLeft: bool, depth: real) {
    if buyLeft then Holds(s.a.ask, s.a.askSize, depth) && Holds(s.l.bid, s.l.bidSize, depth)
    else Holds(s.a.bid, s.a.bidSize, depth) && Holds(s.l.ask, s.l.askSize, depth)
  }

  /** The sold leg's touch less the bought leg's. */
  function Difference(s: State, buyLeft: bool): real { if buyLeft then s.l.bid - s.a.ask else s.a.bid - s.l.ask }

  /** The better of the executable directions, buying left on a tie, and its edge in bps of the left mid. */
  ghost predicate Best(s: State, depth: real, buyLeft: bool, bps: real) {
    && TwoSided(s.a) && TwoSided(s.l) && Executable(s, buyLeft, depth)
    && Times(bps, s.a.bid + s.a.ask) == 20000.0 * Difference(s, buyLeft)
    && (Executable(s, !buyLeft, depth) ==>
          Difference(s, !buyLeft) < Difference(s, buyLeft) || (buyLeft && Difference(s, false) == Difference(s, true)))
  }

  lemma BestIs(s: State, depth: real)
    ensures var best := BestEdge(s.a, s.l, depth);
      && (forall buyLeft, bps :: Best(s, depth, buyLeft, bps) ==> best == Some(Edge(buyLeft, bps)))
      && (best.Some? ==> Best(s, depth, best.value.buyLeft, best.value.bps))
  {
    hide Times;
    if TwoSided(s.a) {
      var total := s.a.bid + s.a.ask;
      EdgeOrders(Difference(s, true), Difference(s, false), total);
      forall buyLeft, bps ensures Times(bps, total) == 20000.0 * Difference(s, buyLeft) <==>
          bps == Difference(s, buyLeft) / (total / 2.0) * 10000.0
      {
        EdgeInverts(Difference(s, buyLeft), total, bps);
      }
    }
  }

  lemma EdgeInverts(difference: real, total: real, bps: real)
    requires total > 0.0
    ensures Times(bps, total) == 20000.0 * difference <==> bps == difference / (total / 2.0) * 10000.0
  {
    var exact := difference / (total / 2.0) * 10000.0;
    assert exact * total == 20000.0 * difference;
    if bps < exact { assert (exact - bps) * total > 0.0; }
    if bps > exact { assert (bps - exact) * total > 0.0; }
  }

  lemma EdgeOrders(x: real, y: real, total: real)
    requires total > 0.0
    ensures x / (total / 2.0) * 10000.0 >= y / (total / 2.0) * 10000.0 <==> x >= y
  {
    var mid := total / 2.0;
    OverBounds(x, mid, Over(y, mid));
    Divided(y, mid);
    assert Over(x, mid) == x / mid && Over(y, mid) == y / mid;
  }

  // ---------------------------------------------------------------- profit by day

  /** Does `t` fall on the d-th day since the epoch? */
  predicate OnDay(t: int, d: int) { d * 86400000 <= t < (d + 1) * 86400000 }

  function DayNet(byDay: map<int, real>, d: int): real { if d in byDay then byDay[d] else 0.0 }

  lemma DayIs(t: int, d: int)
    ensures Day(t) == d <==> OnDay(t, d)
  {
  }

  lemma AddDayIs(byDay: map<int, real>, t: int, x: real)
    ensures forall d :: DayNet(AddDay(byDay, t, x), d) == DayNet(byDay, d) + if OnDay(t, d) then x else 0.0
  {
    forall d ensures DayNet(AddDay(byDay, t, x), d) == DayNet(byDay, d) + if OnDay(t, d) then x else 0.0 {
      DayIs(t, d);
    }
  }

  /** All days together. */
  ghost function AllDays(byDay: map<int, real>): real { Total(byDay.Keys, (d: int) => DayNet(byDay, d)) }

  lemma AddDayTotals(byDay: map<int, real>, t: int, x: real)
    ensures AllDays(AddDay(byDay, t, x)) == AllDays(byDay) + x
  {
    var after := AddDay(byDay, t, x);
    assert after.Keys == byDay.Keys + {Day(t)};
    TotalMoves(byDay.Keys, Day(t), (d: int) => DayNet(byDay, d), (d: int) => DayNet(after, d));
  }

  lemma NoDays()
    ensures AllDays(map[]) == 0.0
  {
  }

  // ---------------------------------------------------------------- the closing mark

  /** The i-th state is the last with the left book known; or, with `both`, both books. */
  ghost predicate LastKnown(states: seq<State>, i: int, both: bool) {
    && 0 <= i < |states| && TwoSided(states[i].a) && (both ==> TwoSided(states[i].l))
    && forall j :: i < j < |states| ==> !(TwoSided(states[j].a) && (both ==> TwoSided(states[j].l)))
  }

  ghost predicate NoneKnown(states: seq<State>, both: bool) {
    forall j :: 0 <= j < |states| ==> !(TwoSided(states[j].a) && (both ==> TwoSided(states[j].l)))
  }

  lemma {:induction false} LastLeftIs(states: seq<State>) returns (i: int)
    ensures LastLeftKnown(states).None? ==> NoneKnown(states, false)
    ensures LastLeftKnown(states).Some? ==> LastKnown(states, i, false) && LastLeftKnown(states) == Some(states[i])
  {
    i := |states| - 1;
    if states != [] && !Known(states[i].a) { i := LastLeftIs(states[..i]); }
  }

  lemma {:induction false} LastBothIs(states: seq<State>) returns (i: int)
    ensures LastBothKnown(states).None? ==> NoneKnown(states, true)
    ensures LastBothKnown(states).Some? ==> LastKnown(states, i, true) && LastBothKnown(states) == Some(states[i])
  {
    i := |states| - 1;
    if states != [] && !(Known(states[i].a) && Known(states[i].l)) { i := LastBothIs(states[..i]); }
  }

  /** What closing costs: the position at the last known left mid, `basis` basis points of it. */
  ghost predicate CostIs(position: real, states: seq<State>, basis: Option<real>, cost: real) {
    && ((basis.None? || NoneKnown(states, false)) ==> cost == 0.0)
    && (basis.Some? ==> forall i :: LastKnown(states, i, false) ==>
          cost * 20000.0 == Times(Times(position, states[i].a.bid + states[i].a.ask), basis.value))
  }

  /** The left-over position in clips, at that mid. */
  ghost predicate ClipsAre(position: real, states: seq<State>, clip: real, clips: real) {
    && (NoneKnown(states, false) ==> clips == 0.0)
    && (forall i :: LastKnown(states, i, false) ==>
          Times(clips, clip) * 2.0 == Times(position, states[i].a.bid + states[i].a.ask))
  }

  /** Closing is booked on the last day both books were known, and in full unless there is none. */
  lemma CloseOutIs(position: real, states: seq<State>, basis: Option<real>, clip: real, byDay: map<int, real>)
    requires clip != 0.0
    ensures var c := CloseOut(position, states, basis, clip, byDay);
      && CostIs(position, states, basis, c.cost) && ClipsAre(position, states, clip, c.clips)
      && (forall i, d :: LastKnown(states, i, true) ==>
            DayNet(c.byDay, d) == DayNet(byDay, d) - if OnDay(states[i].t, d) then c.cost else 0.0)
      && (c.cost == 0.0 || !NoneKnown(states, true) ==> AllDays(c.byDay) == AllDays(byDay) - c.cost)
  {
    hide CostIs, ClipsAre, Times, Over, Mid, AddDay;
    var left := LastLeftIs(states);
    var last := LastBothIs(states);
    var c := CloseOut(position, states, basis, clip, byDay);
    CostHolds(position, states, left, basis, clip, byDay);
    ClipsHold(position, states, left, basis, clip, byDay);
    if LastBothKnown(states).Some? {
      AddDayIs(byDay, states[last].t, -c.cost);
      AddDayTotals(byDay, states[last].t, -c.cost);
    }
  }

  lemma CostHolds(position: real, states: seq<State>, left: int, basis: Option<real>, clip: real, byDay: map<int, real>)
    requires clip != 0.0
    requires LastLeftKnown(states).None? ==> NoneKnown(states, false)
    requires LastLeftKnown(states).Some? ==>
      LastKnown(states, left, false) && LastLeftKnown(states) == Some(states[left])
    ensures CostIs(position, states, basis, CloseOut(position, states, basis, clip, byDay).cost)
  {
    hide Mid, Times, Over, AddDay, LastBothKnown, LastLeftKnown;
    var cost := CloseOut(position, states, basis, clip, byDay).cost;
    forall i | LastKnown(states, i, false) && basis.Some?
      ensures cost * 20000.0 == Times(Times(position, states[i].a.bid + states[i].a.ask), basis.value)
    {
      assert i == left;
      MidTimes(position, states[i].a, basis.value);
    }
    if basis.None? || NoneKnown(states, false) { NoCost(position, basis); }
  }

  lemma MidTimes(position: real, b: Bbo, basis: real)
    ensures Over(Times(Times(position, Mid(b)), basis), 10000.0) * 20000.0
      == Times(Times(position, b.bid + b.ask), basis)
    ensures Times(position, Mid(b)) * 2.0 == Times(position, b.bid + b.ask)
  {
  }

  lemma NoCost(position: real, basis: Option<real>)
    ensures forall mid :: Over(Times(Times(position, mid), 0.0), 10000.0) == 0.0
    ensures basis.Some? ==> Over(Times(Times(position, 0.0), basis.value), 10000.0) == 0.0
  {
  }

  lemma ClipsHold(position: real, states: seq<State>, left: int, basis: Option<real>, clip: real, byDay: map<int, real>)
    requires clip != 0.0
    requires LastLeftKnown(states).None? ==> NoneKnown(states, false)
    requires LastLeftKnown(states).Some? ==>
      LastKnown(states, left, false) && LastLeftKnown(states) == Some(states[left])
    ensures ClipsAre(position, states, clip, CloseOut(position, states, basis, clip, byDay).clips)
  {
    hide Mid, Times, Over, AddDay, LastBothKnown, LastLeftKnown;
    var clips := CloseOut(position, states, basis, clip, byDay).clips;
    forall i | LastKnown(states, i, false)
      ensures Times(clips, clip) * 2.0 == Times(position, states[i].a.bid + states[i].a.ask)
    {
      assert i == left;
      MidTimes(position, states[i].a, 0.0);
      Divided(Times(position, Mid(states[i].a)), clip);
    }
    if NoneKnown(states, false) { NoClips(position, clip); }
  }

  lemma NoClips(position: real, clip: real)
    requires clip != 0.0
    ensures Over(Times(position, 0.0), clip) == 0.0
  {
  }

  lemma Divided(x: real, y: real)
    requires y != 0.0
    ensures Times(Over(x, y), y) == x
  {
  }

  /** A flat position costs nothing to close. */
  lemma FlatCosts(states: seq<State>, basis: Option<real>, clip: real, byDay: map<int, real>)
    requires clip != 0.0
    ensures CloseOut(0.0, states, basis, clip, byDay).cost == 0.0
  {
    hide Over;
    assert forall mid, b :: Times(Times(0.0, mid), b) == 0.0;
    assert Over(0.0, 10000.0) == 0.0 by { ZeroOver(); }
  }

  lemma ZeroOver()
    ensures Over(0.0, 10000.0) == 0.0
  {
  }

  /** A mean times its count is the sum. */
  lemma MeanTimes(sum: real, n: nat)
    requires n == 0 ==> sum == 0.0
    ensures Times(if n as real > 0.0 then Over(sum, n as real) else 0.0, n as real) == sum
  {
    if n > 0 { Divided(sum, n as real); }
  }
}

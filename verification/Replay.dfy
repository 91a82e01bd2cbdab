/**
 The recording holds every moment the report trades on (SCREENER/src/collect.rs and report.rs): a
 replay of the recorded lines of one run takes the same decisions as a replay of every state and
 every trade the run saw.
 */
module Replay {
  import opened Common
  import opened Quotes
  import opened Gates
  import opened Collector
  import opened Report

  // ---------------------------------------------------------------- the full stream

  /** Everything the pair saw, at the clock, whatever was recorded of it. */
  datatype Market = Market(now: int, a: Bbo, l: Bbo, states: seq<State>, trades: seq<Trade>)

  function Opening(now: int): Market {
    Market(now, UNKNOWN, UNKNOWN, [State(now, UNKNOWN, UNKNOWN)], [])
  }

  function Book(m: Market, t: int, venue: Leg, bbo: Bbo): Market {
    var now := Max(m.now, t);
    var a, l := if venue == Left then bbo else m.a, if venue == Left then m.l else bbo;
    Market(now, a, l, m.states + [State(now, a, l)], m.trades)
  }

  function See(m: Market, e: Event): Market {
    match e
    case TickEvent(t) => m.(now := Max(m.now, t))
    case ClosedEvent(t, venue) => Book(m, t, venue, UNKNOWN)
    case BookEvent(t, venue, bbo) => Book(m, t, venue, bbo)
    case TradeEvent(t, venue, price, size, buy) =>
      var now := Max(m.now, t);
      m.(now := now, trades := m.trades + [Trade(now, venue, price, size, buy)])
  }

  function SeeAll(m: Market, events: seq<Event>): Market {
    if events == [] then m else See(SeeAll(m, events[..|events| - 1]), events[|events| - 1])
  }

  /** The run's end shows both connections closing. */
  function FullStream(now: int, events: seq<Event>, end: int): Market {
    Book(Book(SeeAll(Opening(now), events), end, Left, UNKNOWN), end, Right, UNKNOWN)
  }

  // ---------------------------------------------------------------- the recorded stream

  datatype GateHistory = GateHistory(gate: seq<Window>, earlier: Samples)

  /** The gate history for a run starting at `now` (`add_gates`): the windows of the span before
      `now`'s, and the samples an earlier run counted in it. */
  function AddGates(base: seq<Window>, span: int, now: int): GateHistory {
    if base == [] then GateHistory([], multiset{})
    else
      var h, w, current := AddGates(base[..|base| - 1], span, now), base[|base| - 1], WindowOf(now);
      if w.start >= current then h.(earlier := h.earlier + w.samples)
      else if w.start >= current - span then h.(gate := h.gate + [w])
      else h
  }

  function Start(rec: Recording, base: seq<Window>, now: int): PairState {
    var h := AddGates(base, rec.span, now);
    New(rec, h.gate, h.earlier, now)
  }

  /** The lines of a whole run, from `new` to `finish`. */
  function Record(rec: Recording, base: seq<Window>, now: int, events: seq<Event>, end: int): seq<Line> {
    var run := Run(rec, Start(rec, base, now), events);
    run.lines + Finish(rec, run.p, end).lines
  }

  /** What the report loads: the windows of the history files, then the run's lines. */
  function LoadRun(base: seq<Window>, lines: seq<Line>): Data {
    Sorted(AddAll(Data([], [], base), lines))
  }

  // ---------------------------------------------------------------- the gate as the report sees it

  /** The trigger over the windows of the span before `w`. */
  function TriggerAt(rec: Recording, windows: seq<Window>, w: int): real {
    Trigger(rec, InSpan(windows, w - rec.span, w))
  }

  /** The recorder's gate counts, from any start on, what the written windows count. */
  ghost predicate SameCounts(gate: seq<Window>, windows: seq<Window>, since: int, w: int) {
    forall lo, b {:trigger Recount(InSpan(gate, lo, w), b)} ::
      since <= lo <= w ==> Recount(InSpan(gate, lo, w), b) == Recount(InSpan(windows, lo, w), b)
  }

  ghost predicate Within(ws: seq<Window>, lo: int, hi: int) {
    forall w :: w in ws ==> lo <= w.start < hi
  }

  ghost predicate GateMirrors(rec: Recording, p: PairState, windows: seq<Window>) {
    && SortedBy(p.gate, StartOf) && Within(p.gate, p.windowStart - rec.span, p.windowStart)
    && SortedBy(windows, StartOf) && (forall w :: w in windows ==> w.start <= p.windowStart)
    && SameCounts(p.gate, windows, p.windowStart - rec.span, p.windowStart)
    && (forall b :: p.earlier[b] == Recount(InSpan(windows, p.windowStart, p.windowStart + 1), b))
    && p.trigger == TriggerAt(rec, windows, p.windowStart)
  }

  lemma AddSummary(ws: seq<Window>, x: Window, lo: int, hi: int, b: int)
    ensures Recount(InSpan(ws + [x], lo, hi), b)
      == Recount(InSpan(ws, lo, hi), b) + if lo <= x.start < hi then x.samples[b] else 0
  {
    InSpanConcat(ws, [x], lo, hi);
    assert [x][..0] == [];
    assert InSpan([x][..0], lo, hi) == [];
    var tail := if lo <= x.start < hi then [x] else [];
    assert InSpan([x], lo, hi) == tail;
    RecountConcat(InSpan(ws, lo, hi), tail, b);
    RecountOne(x, b);
  }

  lemma SortedPush(ws: seq<Window>, x: Window)
    requires SortedBy(ws, StartOf) && forall w :: w in ws ==> w.start <= x.start
    ensures SortedBy(ws + [x], StartOf)
  {
    forall i, j | 0 <= i < j < |ws + [x]| ensures StartOf((ws + [x])[i]) <= StartOf((ws + [x])[j]) {
      if j == |ws| { assert ws[i] in ws; }
    }
  }

  /** Closing a window: the counts still agree, over the span before the new window. */
  lemma CloseCounts(gate: seq<Window>, windows: seq<Window>, w: int, end: int, span: int, samples: Samples,
          earlier: Samples)
    requires span >= 0 && w < end
    requires SortedBy(gate, StartOf) && Within(gate, w - span, w)
    requires forall v :: v in windows ==> v.start <= w
    requires SameCounts(gate, windows, w - span, w)
    requires forall b :: earlier[b] == Recount(InSpan(windows, w, w + 1), b)
    ensures var gate' := DropBefore(gate + [Window(w, samples + earlier)], end - span);
      && SortedBy(gate', StartOf) && Within(gate', end - span, end)
      && SameCounts(gate', windows + [Window(w, samples)], end - span, end)
  {
    hide InSpan, Recount, DropBefore;
    var x := Window(w, samples + earlier);
    var pushed := gate + [x];
    SortedPush(gate, x);
    DropIsFilter(pushed, end - span, end);
    var gate' := InSpan(pushed, end - span, end);
    InSpanSorted(pushed, end - span, end);
    InSpanMembers(pushed, end - span, end);
    forall lo, b | end - span <= lo <= end
      ensures Recount(InSpan(gate', lo, end), b) == Recount(InSpan(windows + [Window(w, samples)], lo, end), b)
    {
      InSpanTwice(pushed, end - span, end, lo, end);
      CloseCount(gate, windows, w, end, span, samples, earlier, lo, b);
    }
  }

  lemma CloseCount(gate: seq<Window>, windows: seq<Window>, w: int, end: int, span: int, samples: Samples,
          earlier: Samples, lo: int, b: int)
    requires end - span <= lo <= end && w < end
    requires Within(gate, w - span, w) && SameCounts(gate, windows, w - span, w)
    requires forall v :: v in windows ==> v.start <= w
    requires earlier[b] == Recount(InSpan(windows, w, w + 1), b)
    ensures Recount(InSpan(gate + [Window(w, samples + earlier)], lo, end), b)
         == Recount(InSpan(windows + [Window(w, samples)], lo, end), b)
  {
    hide InSpan;
    AddSummary(gate, Window(w, samples + earlier), lo, end, b);
    AddSummary(windows, Window(w, samples), lo, end, b);
    InSpanEnd(gate, lo, w, end);
    CountUpTo(windows, lo, w, end, b);
    if lo <= w {
      assert Recount(InSpan(gate, lo, w), b) == Recount(InSpan(windows, lo, w), b);
    } else {
      InSpanNone(gate, lo, end);
    }
  }

  /** Windows up to `w` seen from `lo`: those before `w`, and those of `w` itself. */
  lemma CountUpTo(windows: seq<Window>, lo: int, w: int, end: int, b: int)
    requires w < end && forall v :: v in windows ==> v.start <= w
    ensures Recount(InSpan(windows, lo, end), b)
         == if lo <= w then Recount(InSpan(windows, lo, w), b) + Recount(InSpan(windows, w, w + 1), b) else 0
  {
    InSpanEnd(windows, lo, w + 1, end);
    if lo <= w {
      RecountSplit(windows, lo, w, w + 1, b);
    } else {
      InSpanNone(windows, lo, w + 1);
    }
  }

  lemma SameTrigger(rec: Recording, gate: seq<Window>, windows: seq<Window>, w: int)
    requires rec.span >= 0 && Within(gate, w - rec.span, w) && SameCounts(gate, windows, w - rec.span, w)
    ensures Trigger(rec, gate) == TriggerAt(rec, windows, w)
  {
    hide InSpan, Recount, Total, Level;
    InSpanAll(gate, w - rec.span, w);
    forall b ensures Recount(gate, b) == Recount(InSpan(windows, w - rec.span, w), b) {
      assert Recount(InSpan(gate, w - rec.span, w), b) == Recount(InSpan(windows, w - rec.span, w), b);
    }
    SameTotal(gate, InSpan(windows, w - rec.span, w));
  }

  lemma CloseMirrors(rec: Recording, p: PairState, windows: seq<Window>, end: int)
    requires rec.span >= 0 && p.windowStart < end && GateMirrors(rec, p, windows)
    ensures GateMirrors(rec, CloseWindow(rec, p, end), windows + [Window(p.windowStart, p.samples)])
  {
    hide InSpan, Recount, DropBefore, Trigger, TriggerAt;
    var q, ws := CloseWindow(rec, p, end), windows + [Window(p.windowStart, p.samples)];
    CloseCounts(p.gate, windows, p.windowStart, end, rec.span, p.samples, p.earlier);
    SortedPush(windows, Window(p.windowStart, p.samples));
    SameTrigger(rec, q.gate, ws, end);
    InSpanNone(ws, end, end + 1);
    NoWindows();
  }

  lemma NoWindows()
    ensures forall b {:trigger Recount([], b)} :: Recount([], b) == 0
  {
  }

  /** Later windows do not change the gate of an earlier one. */
  lemma TriggerStable(rec: Recording, windows: seq<Window>, more: seq<Window>, w: int)
    requires forall v :: v in more ==> w <= v.start
    ensures TriggerAt(rec, windows + more, w) == TriggerAt(rec, windows, w)
  {
    InSpanConcat(windows, more, w - rec.span, w);
    InSpanNone(more, w - rec.span, w);
    assert InSpan(windows, w - rec.span, w) + [] == InSpan(windows, w - rec.span, w);
  }

  lemma {:induction false} StartMirrors(rec: Recording, base: seq<Window>, now: int)
    requires rec.span >= 0 && SortedBy(base, StartOf)
    requires forall w :: w in base ==> w.start <= WindowOf(now)
    ensures GateMirrors(rec, Start(rec, base, now), base)
  {
    hide InSpan, Recount, AddGates, Trigger, TriggerAt, WindowOf;
    var h, w := AddGates(base, rec.span, now), WindowOf(now);
    AddGatesIs(base, rec.span, now);
    InSpanSorted(base, w - rec.span, w);
    InSpanMembers(base, w - rec.span, w);
    forall lo, b | w - rec.span <= lo <= w
      ensures Recount(InSpan(h.gate, lo, w), b) == Recount(InSpan(base, lo, w), b)
    {
      InSpanTwice(base, w - rec.span, w, lo, w);
    }
    SameTrigger(rec, h.gate, base, w);
  }

  lemma {:induction false} AddGatesIs(base: seq<Window>, span: int, now: int)
    requires forall w :: w in base ==> w.start <= WindowOf(now)
    ensures var h, w := AddGates(base, span, now), WindowOf(now);
      && h.gate == InSpan(base, w - span, w)
      && forall b :: h.earlier[b] == Recount(InSpan(base, w, w + 1), b)
  {
    hide WindowOf;
    if base != [] {
      var init, x, w := base[..|base| - 1], base[|base| - 1], WindowOf(now);
      assert x in base && base == init + [x];
      AddGatesIs(init, span, now);
      var h, h' := AddGates(init, span, now), AddGates(base, span, now);
      assert h'.earlier == if x.start >= w then h.earlier + x.samples else h.earlier;
      assert h'.gate == if w - span <= x.start < w then h.gate + [x] else h.gate;
      EarlierCounts(init, x, w, h.earlier, h'.earlier);
    }
  }

  lemma EarlierCounts(init: seq<Window>, x: Window, w: int, was: Samples, now: Samples)
    requires x.start <= w && now == if x.start >= w then was + x.samples else was
    requires forall b :: was[b] == Recount(InSpan(init, w, w + 1), b)
    ensures forall b :: now[b] == Recount(InSpan(init + [x], w, w + 1), b)
  {
    hide InSpan, Recount;
    forall b ensures now[b] == Recount(InSpan(init + [x], w, w + 1), b) {
      AddSummary(init, x, w, w + 1, b);
    }
  }
}

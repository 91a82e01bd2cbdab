/**
 What every step of a run keeps: each recorded trade and each state at or above the trigger has its
 pre-roll and its tail written, and a trade that was not recorded could fill no quote.
 */
module Moments {
  import opened Common
  import opened Quotes
  import opened Gates
  import opened Collector
  import opened Report
  import opened History
  import opened Replay

  /** States are still being written until `t`'s tail ends. */
  ghost predicate Hot(hotUntil: Option<int>, t: int) {
    hotUntil.Some? && hotUntil.value >= t + TAIL_MS
  }

  /** No quote priced in the pre-roll of `x` could have been filled by it. */
  ghost predicate NoFill(rec: Recording, h: seq<Entry>, x: Trade) {
    forall t {:trigger LastAt(h, t)} :: x.t - PREROLL_MS <= t < x.t && LastAt(h, t) >= 0 ==>
      !CouldFill(x.venue, x.buy, x.price, h[LastAt(h, t)].a, h[LastAt(h, t)].l, rec.xemmMinBps, rec.depth)
  }

  /** The trades chosen by the flags. */
  function Chosen(trades: seq<Trade>, kept: seq<bool>): seq<Trade>
    requires |trades| == |kept|
  {
    if trades == [] then []
    else Chosen(trades[..|trades| - 1], kept[..|kept| - 1]) + if kept[|kept| - 1] then [trades[|trades| - 1]] else []
  }

  ghost predicate TradeMoments(rec: Recording, hotUntil: Option<int>, now: int, h: seq<Entry>, trades: seq<Trade>,
          kept: seq<bool>)
  {
    && |kept| == |trades| && SortedBy(trades, TradeTime)
    && (forall k :: 0 <= k < |trades| ==> trades[k].t <= now)
    && (forall k :: 0 <= k < |trades| && kept[k] ==>
          Hot(hotUntil, trades[k].t) && Covered(h, trades[k].t - PREROLL_MS, trades[k].t + TAIL_MS))
    && (forall k :: 0 <= k < |trades| && !kept[k] ==> NoFill(rec, h, trades[k]))
  }

  /** The state reaches the trigger of its time. */
  ghost predicate Fires(rec: Recording, windows: seq<Window>, e: Entry) {
    Triggers(rec, e.a, e.l, TriggerAt(rec, windows, WindowOf(e.t)))
  }

  ghost predicate TriggerMoments(rec: Recording, hotUntil: Option<int>, h: seq<Entry>, windows: seq<Window>) {
    forall i {:trigger h[i]} :: 0 <= i < |h| && Fires(rec, windows, h[i]) ==>
      h[i].written && Hot(hotUntil, h[i].t) && Covered(h, h[i].t, h[i].t + TAIL_MS)
  }

  /** The recorder's state, the market it saw and the lines it wrote tell one story. */
  ghost predicate Tells(rec: Recording, p: PairState, m: Market, h: seq<Entry>, d: Data) {
    && p.now == m.now && p.a == m.a && p.l == m.l
    && StatesOf(h) == m.states && Shape(p, h) && h[|h| - 1].a == p.a && h[|h| - 1].l == p.l
    && Agrees(d, h, rec.depth)
    && GateMirrors(rec, p, d.windows) && p.windowStart == WindowOf(p.now)
  }

  ghost predicate Inv(rec: Recording, p: PairState, m: Market, h: seq<Entry>, d: Data, kept: seq<bool>) {
    && Tells(rec, p, m, h, d)
    && TradeMoments(rec, p.hotUntil, p.now, h, m.trades, kept) && d.trades == Chosen(m.trades, kept)
    && TriggerMoments(rec, p.hotUntil, h, d.windows)
  }

  // ---------------------------------------------------------------- the clock

  /** Only the gate and the window differ. */
  ghost predicate SameMoment(p: PairState, q: PairState) {
    q == p.(gate := q.gate, earlier := q.earlier, trigger := q.trigger, samples := q.samples,
            windowStart := q.windowStart)
  }

  /** Closing windows adds summaries of windows that started no earlier, and keeps the gate exact. */
  lemma {:induction false} RollKeeps(rec: Recording, p: PairState, d: Data) returns (more: seq<Window>)
    requires rec.span >= 0 && GateMirrors(rec, p, d.windows)
    requires p.windowStart % WINDOW_MS == 0 && p.windowStart <= p.now
    ensures var r := Roll(rec, p);
      && AddAll(d, r.lines) == d.(windows := d.windows + more)
      && GateMirrors(rec, r.p, d.windows + more) && r.p.windowStart == WindowOf(r.p.now) && SameMoment(p, r.p)
    ensures forall w :: w in more ==> w.start >= p.windowStart
    decreases p.now - p.windowStart
  {
    hide GateMirrors, CloseWindow, AddAll, WindowOf;
    if p.now >= p.windowStart + WINDOW_MS {
      var end := p.windowStart + WINDOW_MS;
      var q, x := CloseWindow(rec, p, end), Window(p.windowStart, p.samples);
      var line := SummaryLine(p.windowStart, p.samples);
      assert q.now == p.now && q.windowStart == end && SameMoment(p, q) by { ClosedMoment(rec, p, end); }
      CloseMirrors(rec, p, d.windows, end);
      AddOneSummary(d, p.windowStart, p.samples);
      var d' := AddAll(d, [line]);
      var rest := RollKeeps(rec, q, d');
      more := [x] + rest;
      AddAllConcat(d, [line], Roll(rec, q).lines);
      assert d.windows + more == d'.windows + rest;
    } else {
      more := [];
      AddNothing(d);
      assert d.windows + more == d.windows;
      WindowHere(p.windowStart, p.now);
    }
  }

  lemma ClosedMoment(rec: Recording, p: PairState, end: int)
    ensures var q := CloseWindow(rec, p, end); q.now == p.now && q.windowStart == end && SameMoment(p, q)
  {
  }

  lemma AddOneSummary(d: Data, start: int, samples: Samples)
    ensures AddAll(d, [SummaryLine(start, samples)]) == d.(windows := d.windows + [Window(start, samples)])
  {
    var line := SummaryLine(start, samples);
    assert [line][..0] == [];
    assert AddAll(d, [line][..0]) == d;
  }

  lemma WindowHere(w: int, t: int)
    requires w % WINDOW_MS == 0 && w <= t < w + WINDOW_MS
    ensures WindowOf(t) == w
  {
  }

  lemma WindowStarts(t: int)
    ensures WindowOf(t) <= t < WindowOf(t) + WINDOW_MS && WindowOf(t) % WINDOW_MS == 0
  {
  }

  /** Windows that start no earlier than any state's leave every state's trigger as it was. */
  lemma TriggersStable(rec: Recording, hotUntil: Option<int>, h: seq<Entry>, windows: seq<Window>, more: seq<Window>,
          w: int)
    requires TriggerMoments(rec, hotUntil, h, windows)
    requires forall v :: v in more ==> v.start >= w
    requires forall i :: 0 <= i < |h| ==> WindowOf(h[i].t) <= w
    ensures TriggerMoments(rec, hotUntil, h, windows + more)
  {
    hide Triggers, TriggerAt, Covered;
    forall i | 0 <= i < |h| && Fires(rec, windows + more, h[i])
      ensures h[i].written && Hot(hotUntil, h[i].t) && Covered(h, h[i].t, h[i].t + TAIL_MS)
    {
      TriggerStable(rec, windows, more, WindowOf(h[i].t));
      assert Fires(rec, windows, h[i]);
    }
  }

  lemma TickKeeps(rec: Recording, p: PairState, m: Market, h: seq<Entry>, d: Data, kept: seq<bool>, t: int)
    requires rec.span >= 0 && Inv(rec, p, m, h, d, kept)
    ensures var k := Tick(rec, p, t);
      Inv(rec, k.p, m.(now := Max(m.now, t)), h, AddAll(d, k.lines), kept) && SameMoment(p.(now := Max(m.now, t)), k.p)
  {
    hide GateMirrors, TriggerMoments, Roll, AddAll, Agrees, Chosen, WindowOf, Timely, Covered, NoFill;
    var q := p.(now := Max(p.now, t));
    WindowStarts(p.now);
    MirrorsClock(rec, p, d.windows, q.now);
    var more := RollKeeps(rec, q, d);
    forall i | 0 <= i < |h| ensures WindowOf(h[i].t) <= p.windowStart {
      TimesBelow(p, h, i);
      WindowsGrow(h[i].t, p.now);
    }
    TriggersStable(rec, p.hotUntil, h, d.windows, more, p.windowStart);
    assert Agrees(d.(windows := d.windows + more), h, rec.depth) by { SameAgree(d, d.windows + more, h, rec.depth); }
  }

  lemma SameAgree(d: Data, windows: seq<Window>, h: seq<Entry>, depth: real)
    requires Agrees(d, h, depth)
    ensures Agrees(d.(windows := windows), h, depth)
  {
  }

  lemma MirrorsClock(rec: Recording, p: PairState, windows: seq<Window>, now: int)
    requires GateMirrors(rec, p, windows)
    ensures GateMirrors(rec, p.(now := now), windows)
  {
  }

  lemma TimesBelow(p: PairState, h: seq<Entry>, i: nat)
    requires Shape(p, h) && i < |h|
    ensures h[i].t <= p.now
  {
    if i < |h| - 1 { assert h[i].t <= h[|h| - 1].t; }
  }

  // ---------------------------------------------------------------- a book changes

  /** What recording a new state does to the history: `g` is the history with it. */
  lemma RecordKeeps(rec: Recording, q: PairState, h: seq<Entry>, d: Data, t: int) returns (g: seq<Entry>)
    requires Shape(q, h) && Agrees(d, h, rec.depth) && h != [] && h[|h| - 1].t == t
    ensures var s := RecordState(rec, q, t);
      && Shape(s.p, g) && s.p == q.(ring := s.p.ring, hotUntil := s.p.hotUntil)
      && Agrees(AddAll(d, s.lines), g, rec.depth) && AddAll(d, s.lines) == d.(states := AddAll(d, s.lines).states)
    ensures Grows(h, g)
    ensures var s := RecordState(rec, q, t);
      if Triggers(rec, q.a, q.l, q.trigger)
      then s.p.hotUntil == Some(t + TAIL_MS) && g[|h| - 1].written && Covered(g, t, t + TAIL_MS)
      else s.p.hotUntil == q.hotUntil && (q.hotUntil.Some? && t <= q.hotUntil.value ==> g[|h| - 1].written)
  {
    hide Triggers, Agrees, AddAll, Timely, Covered, WriteSince, Shape;
    var s := RecordState(rec, q, t);
    if Triggers(rec, q.a, q.l, q.trigger) || (q.hotUntil.Some? && t <= q.hotUntil.value) {
      assert h[|h| - 1].t - PREROLL_MS <= t;
      g := WriteKeeps(rec, q, h, d, t);
      assert Covered(g, t, t + TAIL_MS);
      SameShape(WriteSince(rec, q, t).p, s.p, g);
    } else {
      g := h;
      AddNothing(d);
    }
  }

  lemma SameShape(p: PairState, q: PairState, h: seq<Entry>)
    requires Shape(p, h) && q.ring == p.ring && q.now == p.now
    ensures Shape(q, h)
  {
  }

  lemma AddNothing(d: Data)
    ensures AddAll(d, []) == d
  {
  }

  /** An unwritten state added to the history adds nothing to the data. */
  lemma KeepAgrees(d: Data, h: seq<Entry>, e: Entry, depth: real)
    requires Agrees(d, h, depth) && !e.written
    ensures Agrees(d, h + [e], depth)
  {
    assert (h + [e])[..|h|] == h && Kept(h, depth) + [] == Kept(h, depth);
  }

  lemma StatesPush(h: seq<Entry>, e: Entry, g: seq<Entry>)
    requires Grows(h + [e], g)
    ensures StatesOf(g) == StatesOf(h) + [StateOf(e)]
  {
    forall i | 0 <= i < |g| ensures StatesOf(g)[i] == (StatesOf(h) + [StateOf(e)])[i] {
      assert g[i] == (h + [e])[i] || g[i] == (h + [e])[i].(written := true);
    }
  }

  lemma SameMirrors(rec: Recording, p: PairState, q: PairState, windows: seq<Window>)
    requires GateMirrors(rec, p, windows)
    requires q.gate == p.gate && q.earlier == p.earlier && q.trigger == p.trigger && q.windowStart == p.windowStart
    ensures GateMirrors(rec, q, windows)
  {
  }

  /** The recorded trades' moments survive a new state: any tail it falls in is being written. */
  lemma TradesPush(rec: Recording, hot: Option<int>, hot': Option<int>, now: int, h: seq<Entry>, e: Entry,
          g: seq<Entry>, trades: seq<Trade>, kept: seq<bool>)
    requires TradeMoments(rec, hot, now, h, trades, kept)
    requires e.t == now && Timely(h + [e]) && Grows(h + [e], g)
    requires hot' == hot || hot' == Some(now + TAIL_MS)
    requires hot.Some? && now <= hot.value ==> g[|h|].written
    ensures TradeMoments(rec, hot', now, g, trades, kept)
  {
    hide Covered, CouldFill, Timely;
    forall k | 0 <= k < |trades| && kept[k]
      ensures Hot(hot', trades[k].t) && Covered(g, trades[k].t - PREROLL_MS, trades[k].t + TAIL_MS)
    {
      PushCovers(h, e, g, trades[k].t - PREROLL_MS, trades[k].t + TAIL_MS);
    }
    forall k | 0 <= k < |trades| && !kept[k] ensures NoFill(rec, g, trades[k]) {
      NoFillPush(rec, h, e, g, trades[k]);
    }
  }

  lemma NoFillPush(rec: Recording, h: seq<Entry>, e: Entry, g: seq<Entry>, x: Trade)
    requires NoFill(rec, h, x) && x.t <= e.t && Grows(h + [e], g)
    ensures NoFill(rec, g, x)
  {
    hide CouldFill;
    forall t | x.t - PREROLL_MS <= t < x.t && LastAt(g, t) >= 0
      ensures !CouldFill(x.venue, x.buy, x.price, g[LastAt(g, t)].a, g[LastAt(g, t)].l, rec.xemmMinBps, rec.depth)
    {
      var k := LastAt(g, t);
      assert (h + [e])[|h|] == e && g[|h|].t == e.t > t;
      assert forall i :: 0 <= i < |h| ==> g[i].t == (h + [e])[i].t == h[i].t;
      assert k == LastAt(h, t);
      assert g[k].a == (h + [e])[k].a == h[k].a && g[k].l == (h + [e])[k].l == h[k].l;
    }
  }

  lemma TriggersPush(rec: Recording, hot: Option<int>, hot': Option<int>, h: seq<Entry>, e: Entry, g: seq<Entry>,
          windows: seq<Window>)
    requires TriggerMoments(rec, hot, h, windows)
    requires Timely(h + [e]) && Grows(h + [e], g)
    requires forall i :: 0 <= i < |h| ==> h[i].t <= e.t
    requires hot' == hot || hot' == Some(e.t + TAIL_MS)
    requires hot.Some? && e.t <= hot.value ==> g[|h|].written
    requires Fires(rec, windows, e) ==> g[|h|].written && hot' == Some(e.t + TAIL_MS) && Covered(g, e.t, e.t + TAIL_MS)
    ensures TriggerMoments(rec, hot', g, windows)
  {
    hide Covered, Triggers, TriggerAt, WindowOf, Timely;
    forall i | 0 <= i < |g| && Fires(rec, windows, g[i])
      ensures g[i].written && Hot(hot', g[i].t) && Covered(g, g[i].t, g[i].t + TAIL_MS)
    {
      assert g[i] == (h + [e])[i] || g[i] == (h + [e])[i].(written := true);
      if i < |h| {
        assert (h + [e])[i] == h[i] && Fires(rec, windows, h[i]);
        PushCovers(h, e, g, h[i].t, h[i].t + TAIL_MS);
      } else {
        assert (h + [e])[i] == e && Fires(rec, windows, e);
      }
    }
  }

  lemma ChangeTells(rec: Recording, p: PairState, m: Market, h: seq<Entry>, d: Data, venue: Leg, bbo: Bbo)
    returns (g: seq<Entry>)
    requires Tells(rec, p, m, h, d)
    ensures var p1 := SetBook(p, venue, bbo);
      var c, e := Changed(rec, p1, p.now), Entry(p.now, p1.a, p1.l, false);
      && Tells(rec, c.p, Book(m, m.now, venue, bbo), g, AddAll(d, c.lines))
      && AddAll(d, c.lines) == d.(states := AddAll(d, c.lines).states)
      && Grows(h + [e], g) && Timely(h + [e])
      && if Triggers(rec, p1.a, p1.l, p.trigger)
         then c.p.hotUntil == Some(p.now + TAIL_MS) && g[|h|].written && Covered(g, p.now, p.now + TAIL_MS)
         else c.p.hotUntil == p.hotUntil && (p.hotUntil.Some? && p.now <= p.hotUntil.value ==> g[|h|].written)
  {
    hide Triggers, Agrees, AddAll, Timely, Covered, GateMirrors, RecordState, Sample, Keep, WindowOf, Grows, Shape;
    var p1 := SetBook(p, venue, bbo);
    SetBookShape(p, h, venue, bbo);
    var e := Entry(p.now, p1.a, p1.l, false);
    var q := KeptAndSampled(rec, p1, h);
    KeepAgrees(d, h, e, rec.depth);
    g := RecordKeeps(rec, q, h + [e], d, p.now);
    StatesPush(h, e, g);
    var c := Changed(rec, p1, p.now);
    assert c == RecordState(rec, q, p.now);
    LastEntry(h, e, g);
    SameMirrors(rec, p, c.p, d.windows);
  }

  lemma SetBookShape(p: PairState, h: seq<Entry>, venue: Leg, bbo: Bbo)
    requires Shape(p, h)
    ensures Shape(SetBook(p, venue, bbo), h)
  {
  }

  /** Keeping and sampling change only the ring and the samples. */
  lemma KeptAndSampled(rec: Recording, p: PairState, h: seq<Entry>) returns (q: PairState)
    requires Shape(p, h)
    ensures q == Sample(rec, Keep(p, p.now), p.now)
    ensures q == p.(ring := q.ring, samples := q.samples, lastSample := q.lastSample)
    ensures var g := h + [Entry(p.now, p.a, p.l, false)]; Shape(q, g) && Timely(g)
  {
    hide Sampled, Trim, BestEdge, Timely;
    KeepShape(p, h, p.now);
    q := Sample(rec, Keep(p, p.now), p.now);
  }

  lemma LastEntry(h: seq<Entry>, e: Entry, g: seq<Entry>)
    requires Grows(h + [e], g)
    ensures |g| == |h| + 1 && g[|h|].t == e.t && g[|h|].a == e.a && g[|h|].l == e.l
  {
    assert (h + [e])[|h|] == e;
  }

  /** One more state, and whatever was written still is. */
  ghost predicate Extends(h: seq<Entry>, g: seq<Entry>) {
    |g| == |h| + 1 && forall i :: 0 <= i < |h| && h[i].written ==> g[i].written
  }

  lemma GrowsExtends(h: seq<Entry>, e: Entry, g: seq<Entry>)
    requires Grows(h + [e], g)
    ensures Extends(h, g)
  {
    forall i | 0 <= i < |h| && h[i].written ensures g[i].written { assert (h + [e])[i] == h[i]; }
  }

  lemma ChangeKeeps(rec: Recording, p: PairState, m: Market, h: seq<Entry>, d: Data, kept: seq<bool>, venue: Leg,
          bbo: Bbo)
    returns (g: seq<Entry>)
    requires Inv(rec, p, m, h, d, kept)
    ensures var c := Changed(rec, SetBook(p, venue, bbo), p.now);
      Inv(rec, c.p, Book(m, m.now, venue, bbo), g, AddAll(d, c.lines), kept)
    ensures Extends(h, g)
  {
    hide Triggers, TriggerAt, Agrees, AddAll, Covered, Changed, NoFill, Chosen, WindowOf;
    g := ChangeTells(rec, p, m, h, d, venue, bbo);
    var p1 := SetBook(p, venue, bbo);
    var e, hot := Entry(p.now, p1.a, p1.l, false), Changed(rec, p1, p.now).p.hotUntil;
    forall i | 0 <= i < |h| ensures h[i].t <= e.t { TimesBelow(p, h, i); }
    assert Fires(rec, d.windows, e) == Triggers(rec, p1.a, p1.l, p.trigger);
    if Triggers(rec, p1.a, p1.l, p.trigger) { assert g[|h|].written; }
    TradesPush(rec, p.hotUntil, hot, p.now, h, e, g, m.trades, kept);
    TriggersPush(rec, p.hotUntil, hot, h, e, g, d.windows);
    GrowsExtends(h, e, g);
  }

  // ---------------------------------------------------------------- a trade

  /** Within its pre-roll, the state in force at a time is still in the ring. */
  lemma RingHolds(p: PairState, h: seq<Entry>, t: int)
    requires Shape(p, h) && t >= p.now - PREROLL_MS && LastAt(h, t) >= 0
    ensures LastAt(h, t) >= |h| - |p.ring| && p.ring[LastAt(h, t) - (|h| - |p.ring|)] == h[LastAt(h, t)]
  {
    hide Timely;
    var lo, k := |h| - |p.ring|, LastAt(h, t);
    assert p.ring[0] == h[lo];
    assert lo > 0 ==> h[lo].t <= t;
    assert k >= lo;
    assert p.ring[k - lo] == h[lo..][k - lo];
  }

  lemma NotRecordedNoFill(rec: Recording, p: PairState, h: seq<Entry>, x: Trade)
    requires Shape(p, h) && x.t == p.now && !Recorded(rec, p.ring, x)
    ensures NoFill(rec, h, x)
  {
    hide CouldFill, Timely;
    forall t | x.t - PREROLL_MS <= t < x.t && LastAt(h, t) >= 0
      ensures !CouldFill(x.venue, x.buy, x.price, h[LastAt(h, t)].a, h[LastAt(h, t)].l, rec.xemmMinBps, rec.depth)
    {
      RingHolds(p, h, t);
      var i := LastAt(h, t) - (|h| - |p.ring|);
      assert !CouldFill(x.venue, x.buy, x.price, p.ring[i].a, p.ring[i].l, rec.xemmMinBps, rec.depth);
    }
  }

  lemma NoFillGrows(rec: Recording, h: seq<Entry>, g: seq<Entry>, x: Trade)
    requires NoFill(rec, h, x) && Grows(h, g)
    ensures NoFill(rec, g, x)
  {
    hide CouldFill;
    forall t | x.t - PREROLL_MS <= t < x.t && LastAt(g, t) >= 0
      ensures !CouldFill(x.venue, x.buy, x.price, g[LastAt(g, t)].a, g[LastAt(g, t)].l, rec.xemmMinBps, rec.depth)
    {
      assert LastAt(g, t) == LastAt(h, t);
    }
  }

  lemma TradesGrow(rec: Recording, hot: Option<int>, hot': Option<int>, now: int, h: seq<Entry>, g: seq<Entry>,
          trades: seq<Trade>, kept: seq<bool>)
    requires TradeMoments(rec, hot, now, h, trades, kept) && Grows(h, g)
    requires hot' == hot || hot' == Some(now + TAIL_MS)
    ensures TradeMoments(rec, hot', now, g, trades, kept)
  {
    hide Covered, NoFill, Grows;
    forall k | 0 <= k < |trades| && kept[k]
      ensures Hot(hot', trades[k].t) && Covered(g, trades[k].t - PREROLL_MS, trades[k].t + TAIL_MS)
    {
      CoveredGrows(h, g, trades[k].t - PREROLL_MS, trades[k].t + TAIL_MS);
    }
    forall k | 0 <= k < |trades| && !kept[k] ensures NoFill(rec, g, trades[k]) { NoFillGrows(rec, h, g, trades[k]); }
  }

  lemma TriggersGrow(rec: Recording, hot: Option<int>, hot': Option<int>, h: seq<Entry>, g: seq<Entry>,
          windows: seq<Window>, now: int)
    requires TriggerMoments(rec, hot, h, windows) && Grows(h, g)
    requires forall i :: 0 <= i < |h| ==> h[i].t <= now
    requires hot' == hot || hot' == Some(now + TAIL_MS)
    ensures TriggerMoments(rec, hot', g, windows)
  {
    hide Covered, Triggers, TriggerAt, WindowOf;
    GrowsKeeps(h, g);
    forall i | 0 <= i < |g| && Fires(rec, windows, g[i])
      ensures g[i].written && Hot(hot', g[i].t) && Covered(g, g[i].t, g[i].t + TAIL_MS)
    {
      assert Fires(rec, windows, h[i]);
      CoveredGrows(h, g, h[i].t, h[i].t + TAIL_MS);
    }
  }

  lemma TradesAppend(rec: Recording, hot: Option<int>, now: int, h: seq<Entry>, trades: seq<Trade>, kept: seq<bool>,
          x: Trade, k: bool)
    requires TradeMoments(rec, hot, now, h, trades, kept) && x.t == now
    requires if k then Hot(hot, x.t) && Covered(h, x.t - PREROLL_MS, x.t + TAIL_MS) else NoFill(rec, h, x)
    ensures TradeMoments(rec, hot, now, h, trades + [x], kept + [k])
    ensures Chosen(trades + [x], kept + [k]) == Chosen(trades, kept) + if k then [x] else []
  {
    hide Covered, NoFill;
    var more, flags := trades + [x], kept + [k];
    assert more[..|trades|] == trades && flags[..|kept|] == kept;
    forall i, j | 0 <= i < j < |more| ensures TradeTime(more[i]) <= TradeTime(more[j]) {
      if j == |trades| { assert more[i] == trades[i]; }
    }
    forall i | 0 <= i < |more| ensures more[i].t <= now && if flags[i]
      then Hot(hot, more[i].t) && Covered(h, more[i].t - PREROLL_MS, more[i].t + TAIL_MS)
      else NoFill(rec, h, more[i])
    {
      if i < |trades| { assert more[i] == trades[i] && flags[i] == kept[i]; }
    }
  }

  /** Writing touches only the flags. */
  lemma GrowsKeeps(h: seq<Entry>, g: seq<Entry>)
    requires Grows(h, g)
    ensures StatesOf(g) == StatesOf(h)
    ensures forall i :: 0 <= i < |h| ==> g[i].t == h[i].t && g[i].a == h[i].a && g[i].l == h[i].l
  {
    assert forall i :: 0 <= i < |h| ==> g[i].t == h[i].t && g[i].a == h[i].a && g[i].l == h[i].l;
    assert forall i :: 0 <= i < |h| ==> StatesOf(g)[i] == StatesOf(h)[i];
  }

  lemma WriteTells(rec: Recording, p: PairState, m: Market, h: seq<Entry>, d: Data, from: int) returns (g: seq<Entry>)
    requires Tells(rec, p, m, h, d)
    ensures var w := WriteSince(rec, p, from);
      && Tells(rec, w.p, m, g, AddAll(d, w.lines)) && w.p == p.(ring := w.p.ring)
      && AddAll(d, w.lines) == d.(states := AddAll(d, w.lines).states)
    ensures Grows(h, g) && g[|h| - 1].written
    ensures from >= p.now - PREROLL_MS ==> forall hi :: Covered(g, from, hi)
  {
    hide Agrees, AddAll, Timely, Covered, GateMirrors, WindowOf, WriteSince, Grows;
    g := WriteKeeps(rec, p, h, d, from);
    GrowsKeeps(h, g);
    SameMirrors(rec, p, WriteSince(rec, p, from).p, d.windows);
  }

  lemma AddTrade(d: Data, x: Trade)
    ensures AddAll(d, [TradeLine(x)]) == d.(trades := d.trades + [x])
  {
    var line := TradeLine(x);
    assert [line][..0] == [];
    assert AddAll(d, [line][..0]) == d;
  }

  lemma RecordedKeeps(rec: Recording, p: PairState, m: Market, h: seq<Entry>, d: Data, kept: seq<bool>, x: Trade)
    returns (g: seq<Entry>)
    requires Inv(rec, p, m, h, d, kept) && x.t == p.now && Recorded(rec, p.ring, x)
    ensures var c := OnTrade(rec, p, x);
      Inv(rec, c.p, m.(trades := m.trades + [x]), g, AddAll(d, c.lines), kept + [true])
  {
    hide Agrees, AddAll, Timely, Covered, GateMirrors, NoFill, Recorded, WriteSince, WindowOf, Grows, Shape, Chosen,
      TradeMoments, TriggerMoments;
    var w, hot := WriteSince(rec, p, x.t - PREROLL_MS), Some(x.t + TAIL_MS);
    g := WriteTells(rec, p, m, h, d, x.t - PREROLL_MS);
    forall i | 0 <= i < |h| ensures h[i].t <= p.now { TimesBelow(p, h, i); }
    TradesGrow(rec, p.hotUntil, hot, p.now, h, g, m.trades, kept);
    TriggersGrow(rec, p.hotUntil, hot, h, g, d.windows, p.now);
    TradesAppend(rec, hot, p.now, g, m.trades, kept, x, true);
    AddAllConcat(d, w.lines, [TradeLine(x)]);
    var d1 := AddAll(d, w.lines);
    AddTrade(d1, x);
    TradesAgree(d1, d1.trades + [x], g, rec.depth);
    SameMirrors(rec, w.p, w.p.(hotUntil := hot), d.windows);
    SameShape(w.p, w.p.(hotUntil := hot), g);
  }

  lemma TradeKeeps(rec: Recording, p: PairState, m: Market, h: seq<Entry>, d: Data, kept: seq<bool>, x: Trade)
      returns (g: seq<Entry>, kept': seq<bool>)
    requires Inv(rec, p, m, h, d, kept) && x.t == p.now
    ensures var c := OnTrade(rec, p, x);
      Inv(rec, c.p, m.(trades := m.trades + [x]), g, AddAll(d, c.lines), kept')
  {
    hide Agrees, AddAll, GateMirrors, NoFill, Recorded, WriteSince, WindowOf, Chosen, TradeMoments, TriggerMoments;
    if Recorded(rec, p.ring, x) {
      g := RecordedKeeps(rec, p, m, h, d, kept, x);
      kept' := kept + [true];
    } else {
      g, kept' := h, kept + [false];
      NotRecordedNoFill(rec, p, h, x);
      TradesAppend(rec, p.hotUntil, p.now, h, m.trades, kept, x, false);
      AddNothing(d);
    }
  }

  lemma TradesAgree(d: Data, trades: seq<Trade>, h: seq<Entry>, depth: real)
    requires Agrees(d, h, depth)
    ensures Agrees(d.(trades := trades), h, depth)
  {
  }

  // ---------------------------------------------------------------- a run

  lemma AddGap(d: Data, t: int, venue: Leg)
    ensures AddAll(d, [GapLine(t, venue)]) == d
  {
    var line := GapLine(t, venue);
    assert [line][..0] == [];
    assert AddAll(d, [line][..0]) == d;
  }

  lemma ClosedKeeps(rec: Recording, p: PairState, m: Market, h: seq<Entry>, d: Data, kept: seq<bool>, t: int,
          venue: Leg)
    returns (g: seq<Entry>)
    requires rec.span >= 0 && Inv(rec, p, m, h, d, kept)
    ensures var c := OnClosed(rec, p, t, venue);
      Inv(rec, c.p, Book(m, t, venue, UNKNOWN), g, AddAll(d, c.lines), kept)
    ensures Extends(h, g)
  {
    hide Inv, AddAll, Changed, Tick;
    var k := Tick(rec, p, t);
    var m1, d1 := m.(now := Max(m.now, t)), AddAll(d, k.lines);
    TickKeeps(rec, p, m, h, d, kept, t);
    assert k.p.now == m1.now by { InvClock(rec, k.p, m1, h, d1, kept); }
    g := ChangeKeeps(rec, k.p, m1, h, d1, kept, venue, UNKNOWN);
    var c := Changed(rec, SetBook(k.p, venue, UNKNOWN), k.p.now);
    AddAllConcat(d, k.lines + [GapLine(k.p.now, venue)], c.lines);
    AddAllConcat(d, k.lines, [GapLine(k.p.now, venue)]);
    AddGap(d1, k.p.now, venue);
  }

  lemma InvClock(rec: Recording, p: PairState, m: Market, h: seq<Entry>, d: Data, kept: seq<bool>)
    requires Inv(rec, p, m, h, d, kept)
    ensures p.now == m.now
  {
  }

  lemma EventKeeps(rec: Recording, p: PairState, m: Market, h: seq<Entry>, d: Data, kept: seq<bool>, e: Event)
      returns (g: seq<Entry>, kept': seq<bool>)
    requires rec.span >= 0 && Inv(rec, p, m, h, d, kept)
    ensures var s := OnEvent(rec, p, e); Inv(rec, s.p, See(m, e), g, AddAll(d, s.lines), kept')
  {
    hide Inv, AddAll, Changed, Tick, OnTrade, OnClosed;
    g, kept' := h, kept;
    var k := Tick(rec, p, e.t);
    var m1, d1 := m.(now := Max(m.now, e.t)), AddAll(d, k.lines);
    TickKeeps(rec, p, m, h, d, kept, e.t);
    assert k.p.now == m1.now by { InvClock(rec, k.p, m1, h, d1, kept); }
    match e {
      case TickEvent(t) =>
      case ClosedEvent(t, venue) =>
        g := ClosedKeeps(rec, p, m, h, d, kept, t, venue);
      case BookEvent(t, venue, bbo) =>
        g := ChangeKeeps(rec, k.p, m1, h, d1, kept, venue, bbo);
        AddAllConcat(d, k.lines, Changed(rec, SetBook(k.p, venue, bbo), k.p.now).lines);
      case TradeEvent(t, venue, price, size, buy) =>
        var x := Trade(k.p.now, venue, price, size, buy);
        g, kept' := TradeKeeps(rec, k.p, m1, h, d1, kept, x);
        AddAllConcat(d, k.lines, OnTrade(rec, k.p, x).lines);
    }
  }

  lemma {:induction false} RunKeeps(rec: Recording, p: PairState, m: Market, h: seq<Entry>, d: Data, kept: seq<bool>,
          events: seq<Event>)
    returns (g: seq<Entry>, kept': seq<bool>)
    requires rec.span >= 0 && Inv(rec, p, m, h, d, kept)
    ensures var r := Run(rec, p, events); Inv(rec, r.p, SeeAll(m, events), g, AddAll(d, r.lines), kept')
  {
    hide Inv, AddAll, OnEvent, See;
    g, kept' := h, kept;
    if events == [] {
      AddNothing(d);
    } else {
      var init, e := events[..|events| - 1], events[|events| - 1];
      g, kept' := RunKeeps(rec, p, m, h, d, kept, init);
      var r := Run(rec, p, init);
      g, kept' := EventKeeps(rec, r.p, SeeAll(m, init), g, AddAll(d, r.lines), kept', e);
      AddAllConcat(d, r.lines, OnEvent(rec, r.p, e).lines);
    }
  }

  lemma StartKeeps(rec: Recording, base: seq<Window>, now: int) returns (h: seq<Entry>)
    requires rec.span >= 0 && rec.depth > 0.0 && SortedBy(base, StartOf)
    requires forall w :: w in base ==> w.start <= WindowOf(now)
    ensures Inv(rec, Start(rec, base, now), Opening(now), h, Data([], [], base), [])
  {
    hide GateMirrors, TriggerAt, WindowOf, AddGates, Trigger;
    h := [Entry(now, UNKNOWN, UNKNOWN, false)];
    StartMirrors(rec, base, now);
    var d := Data([], [], base);
    assert Kept(h, rec.depth) == [] by { assert h[..0] == []; assert Kept(h[..0], rec.depth) == []; }
    assert StatesOf(h) == Opening(now).states;
    assert BestEdge(UNKNOWN, UNKNOWN, rec.depth).None?;
  }

  /** The story of a whole run, told by its data. */
  ghost predicate Told(rec: Recording, m: Market, h: seq<Entry>, d: Data, kept: seq<bool>, hot: Option<int>, now: int) {
    && StatesOf(h) == m.states && Timely(h) && Agrees(d, h, rec.depth)
    && SortedBy(d.windows, StartOf) && now == m.now && (forall w :: w in d.windows ==> w.start <= WindowOf(now))
    && TradeMoments(rec, hot, now, h, m.trades, kept) && d.trades == Chosen(m.trades, kept)
    && TriggerMoments(rec, hot, h, d.windows)
  }

  lemma WriteInv(rec: Recording, p: PairState, m: Market, h: seq<Entry>, d: Data, kept: seq<bool>, from: int)
    returns (g: seq<Entry>)
    requires Inv(rec, p, m, h, d, kept)
    ensures var w := WriteSince(rec, p, from); Inv(rec, w.p, m, g, AddAll(d, w.lines), kept)
    ensures |g| == |m.states| && g != [] && g[|g| - 1].written
  {
    hide Agrees, AddAll, Timely, Covered, GateMirrors, WriteSince, WindowOf, Chosen, TradeMoments, TriggerMoments;
    g := WriteTells(rec, p, m, h, d, from);
    forall i | 0 <= i < |h| ensures h[i].t <= p.now { TimesBelow(p, h, i); }
    TradesGrow(rec, p.hotUntil, p.hotUntil, p.now, h, g, m.trades, kept);
    TriggersGrow(rec, p.hotUntil, p.hotUntil, h, g, d.windows, p.now);
  }

  /** The last summary, of the window running when the run ends. */
  lemma LastSummary(rec: Recording, p: PairState, m: Market, h: seq<Entry>, d: Data, kept: seq<bool>)
    requires Inv(rec, p, m, h, d, kept)
    ensures Told(rec, m, h, AddAll(d, [SummaryLine(p.windowStart, p.samples)]), kept, p.hotUntil, p.now)
  {
    hide Agrees, AddAll, Timely, WindowOf, Chosen, TradeMoments, TriggerMoments, SameCounts, TriggerAt, InSpan, Recount;
    var x := Window(p.windowStart, p.samples);
    AddOneSummary(d, p.windowStart, p.samples);
    SortedPush(d.windows, x);
    forall i | 0 <= i < |h| ensures WindowOf(h[i].t) <= p.windowStart {
      TimesBelow(p, h, i);
      WindowsGrow(h[i].t, p.now);
    }
    TriggersStable(rec, p.hotUntil, h, d.windows, [x], p.windowStart);
    SameAgree(d, d.windows + [x], h, rec.depth);
  }

  lemma FinishKeeps(rec: Recording, p: PairState, m: Market, h: seq<Entry>, d: Data, kept: seq<bool>, end: int)
      returns (g: seq<Entry>, hot: Option<int>, now: int)
    requires rec.span >= 0 && Inv(rec, p, m, h, d, kept)
    ensures var full := Book(Book(m, end, Left, UNKNOWN), end, Right, UNKNOWN);
      Told(rec, full, g, AddAll(d, Finish(rec, p, end).lines), kept, hot, now)
    ensures |g| == |m.states| + 2 && |m.states| > 0 && g[|m.states| - 1].written
  {
    hide Inv, Told, AddAll, Tick, OnClosed, WriteSince;
    var w := WriteSince(rec, p, end);
    var left := OnClosed(rec, w.p, end, Left);
    var right := OnClosed(rec, left.p, end, Right);
    var k := Tick(rec, right.p, end);
    var m1 := Book(m, end, Left, UNKNOWN);
    var m2 := Book(m1, end, Right, UNKNOWN);
    var d0 := AddAll(d, w.lines);
    var d1 := AddAll(d0, left.lines);
    var d2 := AddAll(d1, right.lines);
    var g0 := WriteInv(rec, p, m, h, d, kept, end);
    var g1 := ClosedKeeps(rec, w.p, m, g0, d0, kept, end, Left);
    g := ClosedKeeps(rec, left.p, m1, g1, d1, kept, end, Right);
    TickKeeps(rec, right.p, m2, g, d2, kept, end);
    assert m2.(now := Max(m2.now, end)) == m2;
    LastSummary(rec, k.p, m2, g, AddAll(d2, k.lines), kept);
    hot, now := k.p.hotUntil, k.p.now;
    var last := [SummaryLine(k.p.windowStart, k.p.samples)];
    AddAllConcat(d, w.lines + left.lines + right.lines + k.lines, last);
    AddAllConcat(d, w.lines + left.lines + right.lines, k.lines);
    AddAllConcat(d, w.lines + left.lines, right.lines);
    AddAllConcat(d, w.lines, left.lines);
  }

  /** A run from `new` to `finish` tells its story. */
  lemma RunTells(rec: Recording, base: seq<Window>, now: int, events: seq<Event>, end: int)
      returns (h: seq<Entry>, kept: seq<bool>, hot: Option<int>, clock: int)
    requires rec.span >= 0 && rec.depth > 0.0 && SortedBy(base, StartOf)
    requires forall w :: w in base ==> w.start <= WindowOf(now)
    ensures var d := AddAll(Data([], [], base), Record(rec, base, now, events, end));
      Told(rec, FullStream(now, events, end), h, d, kept, hot, clock)
    ensures var n := |SeeAll(Opening(now), events).states|; 0 < n && |h| == n + 2 && h[n - 1].written
  {
    hide Inv, Told, AddAll, Run, Finish, Start, SeeAll;
    var d, p := Data([], [], base), Start(rec, base, now);
    h := StartKeeps(rec, base, now);
    h, kept := RunKeeps(rec, p, Opening(now), h, d, [], events);
    var run := Run(rec, p, events);
    h, hot, clock := FinishKeeps(rec, run.p, SeeAll(Opening(now), events), h, AddAll(d, run.lines), kept, end);
    AddAllConcat(d, run.lines, Finish(rec, run.p, end).lines);
  }
}

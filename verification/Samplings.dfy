/**
 What the recorder samples and records (SCREENER/src/collect.rs), said of the books: the edge sampled for the
 gate, its bin, and the trades kept.
 */
module Samplings {
  import opened Common
  import opened Reals
  import opened Quotes
  import opened Gates
  import opened Collector
  import opened Bookings

  /** A sample is due: the better executable edge reaches the floor, an interval after the last. */
  ghost predicate Due(rec: Recording, p: PairState, t: int, bps: real) {
    && (exists buyLeft :: Best(State(t, p.a, p.l), rec.depth, buyLeft, bps))
    && bps >= rec.floor && (p.lastSample.Some? ==> t - p.lastSample.value >= rec.interval)
  }

  ghost predicate InBin(bps: real, bin: int) { bin as real * 0.25 <= bps < (bin + 1) as real * 0.25 }

  /** A change samples the pair exactly when a sample is due, in the quarter of a basis point its edge lies in. */
  lemma SampleIs(rec: Recording, p: PairState, t: int)
    ensures var q := Sample(rec, p, t);
      && (forall bps :: Due(rec, p, t, bps) ==>
            exists bin :: InBin(bps, bin) && q == p.(samples := p.samples + multiset{bin}, lastSample := Some(t)))
      && ((forall bps :: !Due(rec, p, t, bps)) ==> q == p)
  {
    hide BestEdge, Best;
    BestIs(State(t, p.a, p.l), rec.depth);
    var best := BestEdge(p.a, p.l, rec.depth);
    if best.Some? {
      EdgeBinIs(best.value.bps);
      assert InBin(best.value.bps, EdgeBin(best.value.bps));
      assert Sampled(rec, p, t) ==> Due(rec, p, t, best.value.bps);
      assert forall bps :: Due(rec, p, t, bps) ==> bps == best.value.bps;
    }
  }

  /** A state reaches the trigger: its better executable edge does. */
  lemma TriggersIs(rec: Recording, s: State, trigger: real)
    ensures Triggers(rec, s.a, s.l, trigger) <==>
      exists buyLeft, bps :: Best(s, rec.depth, buyLeft, bps) && bps >= trigger
  {
    hide BestEdge, Best;
    BestIs(s, rec.depth);
  }

  /** A print beyond the own touch, and beyond the other side's by the least edge, which holds the depth. */
  ghost predicate Beyond(s: State, venue: Leg, buy: bool, price: real, minBps: real, depth: real) {
    var own, other := if venue == Left then s.a else s.l, if venue == Left then s.l else s.a;
    && TwoSided(s.a) && TwoSided(s.l)
    && if buy then
         && price > own.ask && Holds(other.ask, other.askSize, depth)
         && (price - other.ask) * 40000.0 > Times(minBps, s.a.bid + s.a.ask + s.l.bid + s.l.ask)
       else
         && price < own.bid && Holds(other.bid, other.bidSize, depth)
         && (other.bid - price) * 40000.0 > Times(minBps, s.a.bid + s.a.ask + s.l.bid + s.l.ask)
  }

  lemma CouldFillIs(s: State, venue: Leg, buy: bool, price: real, minBps: real, depth: real)
    ensures CouldFill(venue, buy, price, s.a, s.l, minBps, depth) <==> Beyond(s, venue, buy, price, minBps, depth)
  {
    LeastIs(s, minBps);
    hide BpsOf, Times;
  }

  lemma LeastIs(s: State, minBps: real)
    ensures BpsOf(minBps, (Mid(s.a) + Mid(s.l)) / 2.0) * 40000.0 == Times(minBps, s.a.bid + s.a.ask + s.l.bid + s.l.ask)
  {
  }

  /** A trade is recorded exactly when it lies beyond some state still in the ring. */
  lemma TradeRecorded(rec: Recording, p: PairState, x: Trade)
    ensures TradeLine(x) in OnTrade(rec, p, x).lines <==>
      exists i :: 0 <= i < |p.ring| &&
        Beyond(State(p.ring[i].t, p.ring[i].a, p.ring[i].l), x.venue, x.buy, x.price, rec.xemmMinBps, rec.depth)
  {
    hide CouldFill, Beyond, WriteSince;
    forall e: Entry ensures CouldFill(x.venue, x.buy, x.price, e.a, e.l, rec.xemmMinBps, rec.depth) <==>
        Beyond(State(e.t, e.a, e.l), x.venue, x.buy, x.price, rec.xemmMinBps, rec.depth)
    {
      CouldFillIs(State(e.t, e.a, e.l), x.venue, x.buy, x.price, rec.xemmMinBps, rec.depth);
    }
    if Recorded(rec, p.ring, x) {
      var lines := OnTrade(rec, p, x).lines;
      assert lines[|lines| - 1] == TradeLine(x);
    }
  }

  // ---------------------------------------------------------------- the samples of a whole run

  /** A sample: when it was taken, and the bin it counts in. */
  datatype Look = Look(t: int, bin: int)

  /** The clock after these events: their latest time, or the start. */
  function Clock(now: int, events: seq<Event>): int {
    if events == [] then now else Max(Clock(now, events[..|events| - 1]), events[|events| - 1].t)
  }

  /** A venue's book after these events: the last one it sent, unknown before and after a closed connection. */
  function BookAfter(events: seq<Event>, venue: Leg): Bbo {
    if events == [] then UNKNOWN
    else
      match events[|events| - 1]
      case BookEvent(_, of, bbo) => if of == venue then bbo else BookAfter(events[..|events| - 1], venue)
      case ClosedEvent(_, of) => if of == venue then UNKNOWN else BookAfter(events[..|events| - 1], venue)
      case _ => BookAfter(events[..|events| - 1], venue)
  }

  /** The samples of a run: at each change of a book, the edge if it reaches the floor, an interval apart. */
  function Looks(rec: Recording, now: int, events: seq<Event>): seq<Look> {
    if events == [] then []
    else
      var before, e := Looks(rec, now, events[..|events| - 1]), events[|events| - 1];
      var t, edge := Clock(now, events), BestEdge(BookAfter(events, Left), BookAfter(events, Right), rec.depth);
      if && (e.BookEvent? || e.ClosedEvent?) && edge.Some? && edge.value.bps >= rec.floor
         && (before == [] || t - before[|before| - 1].t >= rec.interval)
      then before + [Look(t, EdgeBin(edge.value.bps))] else before
  }

  /** The bins of the samples taken in one window. */
  function InWindow(looks: seq<Look>, window: int): Samples {
    if looks == [] then multiset{}
    else
      var last := looks[|looks| - 1];
      InWindow(looks[..|looks| - 1], window) + if WindowOf(last.t) == window then multiset{last.bin} else multiset{}
  }

  function Summaries(lines: seq<Line>): seq<Line> {
    if lines == [] then []
    else
      var last := lines[|lines| - 1];
      Summaries(lines[..|lines| - 1]) + if last.SummaryLine? then [last] else []
  }

  /** When the n-th window after the first opens. */
  function Opens(first: int, n: nat): int { first + 300000 * n }

  /** One line a window from the first on, each with the samples taken in it. */
  function Expected(looks: seq<Look>, first: int, n: nat): seq<Line> {
    if n == 0 then []
    else
      Expected(looks, first, n - 1) + [SummaryLine(Opens(first, n - 1), InWindow(looks, Opens(first, n - 1)))]
  }

  ghost predicate UpTo(looks: seq<Look>, window: int) {
    forall i :: 0 <= i < |looks| ==> WindowOf(looks[i].t) <= window
  }

  /** After these events, n windows are summarized and the samples of the current one are held. */
  ghost predicate Counted(looks: seq<Look>, first: int, p: PairState, lines: seq<Line>, n: nat) {
    && p.windowStart == Opens(first, n) && p.samples == InWindow(looks, p.windowStart)
    && UpTo(looks, p.windowStart) && Summaries(lines) == Expected(looks, first, n)
  }

  ghost predicate Follows(rec: Recording, now: int, events: seq<Event>, p: PairState) {
    var looks := Looks(rec, now, events);
    && p.a == BookAfter(events, Left) && p.l == BookAfter(events, Right) && p.now == Clock(now, events)
    && p.lastSample == (if looks == [] then None else Some(looks[|looks| - 1].t))
  }

  lemma {:induction false} SummariesJoin(a: seq<Line>, b: seq<Line>)
    ensures Summaries(a + b) == Summaries(a) + Summaries(b)
  {
    if b == [] {
      assert a + b == a;
    } else {
      assert (a + b)[..|a + b| - 1] == a + b[..|b| - 1];
      SummariesJoin(a, b[..|b| - 1]);
    }
  }

  lemma {:induction false} NoneIn(looks: seq<Look>, window: int)
    requires forall i :: 0 <= i < |looks| ==> WindowOf(looks[i].t) != window
    ensures InWindow(looks, window) == multiset{}
  {
    if looks != [] { NoneIn(looks[..|looks| - 1], window); }
  }

  /** Rolling the clock on writes one line for each window that ended. */
  lemma {:induction false} RollCounts(rec: Recording, p: PairState, looks: seq<Look>, first: int, lines: seq<Line>,
          n: nat)
      returns (m: nat)
    requires first % WINDOW_MS == 0 && p.windowStart <= p.now && Counted(looks, first, p, lines, n)
    ensures var r := Roll(rec, p);
      && Counted(looks, first, r.p, lines + r.lines, m) && r.p.windowStart == WindowOf(p.now)
      && r.p == p.(gate := r.p.gate, earlier := r.p.earlier, trigger := r.p.trigger, samples := r.p.samples,
                   windowStart := r.p.windowStart)
    decreases p.now - p.windowStart
  {
    hide WindowOf, Trigger, DropBefore;
    WindowOfIs(p.now);
    if p.now >= p.windowStart + WINDOW_MS {
      var q, line := CloseWindow(rec, p, p.windowStart + WINDOW_MS), SummaryLine(p.windowStart, p.samples);
      SummariesJoin(lines, [line]);
      assert [line][..0] == [];
      NoneIn(looks, q.windowStart);
      m := RollCounts(rec, q, looks, first, lines + [line], n + 1);
      assert lines + Roll(rec, p).lines == lines + [line] + Roll(rec, q).lines;
    } else {
      assert lines + [] == lines;
      m := n;
    }
  }

  lemma {:induction false} NoSummaries(lines: seq<Line>)
    requires forall line :: line in lines ==> !line.SummaryLine?
    ensures Summaries(lines) == []
  {
    if lines != [] {
      assert lines[|lines| - 1] in lines;
      NoSummaries(lines[..|lines| - 1]);
    }
  }

  lemma {:induction false} StatesOnly(ring: seq<Entry>, start: nat, end: nat, depth: real)
    requires end <= |ring|
    ensures forall line :: line in LinesOf(ring, start, end, depth) ==> !line.SummaryLine?
  {
    if end > start { StatesOnly(ring, start, end - 1, depth); }
  }

  /** What writing states leaves alone. */
  ghost predicate SameCounts(p: PairState, q: PairState) {
    && q.a == p.a && q.l == p.l && q.now == p.now && q.lastSample == p.lastSample && q.samples == p.samples
    && q.windowStart == p.windowStart
  }

  lemma RecordCounts(rec: Recording, p: PairState, t: int)
    ensures var s := RecordState(rec, p, t); SameCounts(p, s.p) && Summaries(s.lines) == []
  {
    hide Triggers, Marked, StartAt;
    var start := StartAt(p.ring, t);
    StatesOnly(p.ring, start, |p.ring|, rec.depth);
    NoSummaries(LinesOf(p.ring, start, |p.ring|, rec.depth));
  }

  lemma TradeCounts(rec: Recording, p: PairState, x: Trade)
    ensures var s := OnTrade(rec, p, x); SameCounts(p, s.p) && Summaries(s.lines) == []
  {
    hide Recorded, Marked, StartAt;
    var start := StartAt(p.ring, x.t - PREROLL_MS);
    StatesOnly(p.ring, start, |p.ring|, rec.depth);
    NoSummaries(OnTrade(rec, p, x).lines);
  }

  lemma LookMore(looks: seq<Look>, look: Look, window: int)
    ensures InWindow(looks + [look], window)
      == InWindow(looks, window) + if WindowOf(look.t) == window then multiset{look.bin} else multiset{}
  {
    assert (looks + [look])[..|looks|] == looks;
  }

  /** A sample of the current window leaves the lines of those before as they are. */
  lemma {:induction false} ExpectedStays(looks: seq<Look>, look: Look, first: int, n: nat)
    requires WindowOf(look.t) >= Opens(first, n)
    ensures Expected(looks + [look], first, n) == Expected(looks, first, n)
  {
    hide WindowOf, InWindow;
    if n > 0 {
      assert Opens(first, n - 1) < Opens(first, n);
      ExpectedStays(looks, look, first, n - 1);
      LookMore(looks, look, Opens(first, n - 1));
      assert InWindow(looks + [look], Opens(first, n - 1)) == InWindow(looks, Opens(first, n - 1));
    }
  }

  /** A changed book, once the clock is there, adds its sample. */
  lemma ChangeCounts(rec: Recording, now: int, events: seq<Event>, p: PairState, lines: seq<Line>, n: nat)
    requires events != [] && (events[|events| - 1].BookEvent? || events[|events| - 1].ClosedEvent?)
    requires var looks := Looks(rec, now, events[..|events| - 1]);
      && Counted(looks, WindowOf(now), p, lines, n) && p.windowStart == WindowOf(p.now)
      && p.lastSample == (if looks == [] then None else Some(looks[|looks| - 1].t))
    requires p.a == BookAfter(events, Left) && p.l == BookAfter(events, Right) && p.now == Clock(now, events)
    ensures var c := Changed(rec, p, p.now);
      && Follows(rec, now, events, c.p) && Counted(Looks(rec, now, events), WindowOf(now), c.p, lines + c.lines, n)
  {
    hide BestEdge, WindowOf, RecordState, Trim, BookAfter, Clock, EdgeBin, Counted, Looks;
    var before, k := Looks(rec, now, events[..|events| - 1]), Keep(p, p.now);
    var q := Sample(rec, k, p.now);
    LooksMore(rec, now, events);
    BookSet(p, k, before, WindowOf(now), lines, n);
    if Sampled(rec, k, p.now) {
      LookCounts(k, q, before, Look(p.now, EdgeBin(BestEdge(k.a, k.l, rec.depth).value.bps)), WindowOf(now), lines, n);
    }
    RecordCounts(rec, q, p.now);
    LinesCount(q, RecordState(rec, q, p.now), Looks(rec, now, events), WindowOf(now), lines, n);
  }

  lemma LooksMore(rec: Recording, now: int, events: seq<Event>)
    requires events != [] && (events[|events| - 1].BookEvent? || events[|events| - 1].ClosedEvent?)
    ensures var before := Looks(rec, now, events[..|events| - 1]);
      var t, edge := Clock(now, events), BestEdge(BookAfter(events, Left), BookAfter(events, Right), rec.depth);
      Looks(rec, now, events) ==
        if edge.Some? && edge.value.bps >= rec.floor && (before == [] || t - before[|before| - 1].t >= rec.interval)
        then before + [Look(t, EdgeBin(edge.value.bps))] else before
  {
    hide BestEdge, BookAfter, Clock, EdgeBin;
  }

  lemma LookCounts(p: PairState, q: PairState, looks: seq<Look>, look: Look, first: int, lines: seq<Line>, n: nat)
    requires Counted(looks, first, p, lines, n) && WindowOf(look.t) == p.windowStart
    requires q == p.(samples := p.samples + multiset{look.bin}, lastSample := q.lastSample)
    ensures Counted(looks + [look], first, q, lines, n)
  {
    hide WindowOf, InWindow, Expected, Summaries;
    LookMore(looks, look, p.windowStart);
    ExpectedStays(looks, look, first, n);
  }

  /** The clock's part of an event. */
  lemma TickCounts(rec: Recording, looks: seq<Look>, first: int, t: int, p: PairState, lines: seq<Line>, n: nat)
      returns (m: nat)
    requires Counted(looks, first, p, lines, n) && p.windowStart == WindowOf(p.now) && first % WINDOW_MS == 0
    ensures var k := Tick(rec, p, t);
      && Counted(looks, first, k.p, lines + k.lines, m) && k.p.windowStart == WindowOf(k.p.now)
      && k.p.now == Max(p.now, t) && k.p.a == p.a && k.p.l == p.l && k.p.lastSample == p.lastSample
  {
    hide WindowOf, Roll, Counted;
    var q := p.(now := Max(p.now, t));
    WindowOfIs(p.now);
    ClockMoves(p, q, looks, first, lines, n);
    m := RollCounts(rec, q, looks, first, lines, n);
  }

  /** One event more. */
  lemma EventCounts(rec: Recording, now: int, events: seq<Event>, e: Event, p: PairState, lines: seq<Line>, n: nat)
      returns (m: nat)
    requires Follows(rec, now, events, p) && Counted(Looks(rec, now, events), WindowOf(now), p, lines, n)
    requires p.windowStart == WindowOf(p.now)
    ensures var s := OnEvent(rec, p, e);
      && Follows(rec, now, events + [e], s.p) && s.p.windowStart == WindowOf(s.p.now)
      && Counted(Looks(rec, now, events + [e]), WindowOf(now), s.p, lines + s.lines, m)
  {
    hide BestEdge, WindowOf, Tick, Counted, Changed, OnTrade;
    assert (events + [e])[..|events|] == events;
    WindowOfIs(now);
    m := TickCounts(rec, Looks(rec, now, events), WindowOf(now), e.t, p, lines, n);
    var k := Tick(rec, p, e.t);
    match e
    case TickEvent(_) =>
    case TradeEvent(_, venue, price, size, buy) =>
      var x := Trade(k.p.now, venue, price, size, buy);
      TradeCounts(rec, k.p, x);
      LinesCount(k.p, OnTrade(rec, k.p, x), Looks(rec, now, events), WindowOf(now), lines + k.lines, m);
      assert lines + (k.lines + OnTrade(rec, k.p, x).lines) == lines + k.lines + OnTrade(rec, k.p, x).lines;
    case BookEvent(_, venue, bbo) =>
      SetCounts(rec, now, events, e, k.p, venue, bbo, [], lines + k.lines, m);
      var c := Changed(rec, SetBook(k.p, venue, bbo), k.p.now);
      assert lines + (k.lines + c.lines) == lines + k.lines + [] + c.lines;
    case ClosedEvent(_, venue) =>
      var gap := GapLine(k.p.now, venue);
      SetCounts(rec, now, events, e, k.p, venue, UNKNOWN, [gap], lines + k.lines, m);
      var c := Changed(rec, SetBook(k.p, venue, UNKNOWN), k.p.now);
      assert lines + (k.lines + [gap] + c.lines) == lines + k.lines + [gap] + c.lines;
  }

  /** The book's part of an event that sends or loses one, a gap line ahead of it or not. */
  lemma SetCounts(rec: Recording, now: int, events: seq<Event>, e: Event, p: PairState, venue: Leg, bbo: Bbo,
          gap: seq<Line>, lines: seq<Line>, n: nat)
    requires Counted(Looks(rec, now, events), WindowOf(now), p, lines, n) && p.windowStart == WindowOf(p.now)
    requires Follows(rec, now, events, p.(now := Clock(now, events))) && p.now == Max(Clock(now, events), e.t)
    requires e == BookEvent(e.t, venue, bbo) || (e == ClosedEvent(e.t, venue) && bbo == UNKNOWN)
    requires gap == [] || (|gap| == 1 && gap[0].GapLine?)
    ensures var c := Changed(rec, SetBook(p, venue, bbo), p.now);
      && Follows(rec, now, events + [e], c.p) && c.p.windowStart == WindowOf(c.p.now)
      && Counted(Looks(rec, now, events + [e]), WindowOf(now), c.p, lines + gap + c.lines, n)
  {
    hide BestEdge, WindowOf, Changed, Counted, Looks;
    assert (events + [e])[..|events|] == events;
    var b := SetBook(p, venue, bbo);
    BookSet(p, b, Looks(rec, now, events), WindowOf(now), lines, n);
    if gap == [] {
      assert lines + gap == lines;
    } else {
      GapCounts(b, gap[0], Looks(rec, now, events), WindowOf(now), lines, n);
      assert gap == [gap[0]];
    }
    ChangeCounts(rec, now, events + [e], b, lines + gap, n);
    ChangeKeeps(rec, b, b.now);
  }

  lemma ClockMoves(p: PairState, q: PairState, looks: seq<Look>, first: int, lines: seq<Line>, n: nat)
    requires Counted(looks, first, p, lines, n) && q == p.(now := q.now)
    ensures Counted(looks, first, q, lines, n)
  {
  }

  lemma BookSet(p: PairState, q: PairState, looks: seq<Look>, first: int, lines: seq<Line>, n: nat)
    requires Counted(looks, first, p, lines, n) && q == p.(a := q.a, l := q.l, ring := q.ring)
    ensures Counted(looks, first, q, lines, n)
  {
  }

  lemma GapCounts(p: PairState, gap: Line, looks: seq<Look>, first: int, lines: seq<Line>, n: nat)
    requires Counted(looks, first, p, lines, n) && gap.GapLine?
    ensures Counted(looks, first, p, lines + [gap], n)
  {
    SummariesJoin(lines, [gap]);
    NoSummaries([gap]);
  }

  lemma LinesCount(p: PairState, s: Step, looks: seq<Look>, first: int, lines: seq<Line>, n: nat)
    requires Counted(looks, first, p, lines, n) && SameCounts(p, s.p) && Summaries(s.lines) == []
    ensures Counted(looks, first, s.p, lines + s.lines, n)
  {
    SummariesJoin(lines, s.lines);
  }

  lemma ChangeKeeps(rec: Recording, p: PairState, t: int)
    ensures Changed(rec, p, t).p.windowStart == p.windowStart
  {
    hide RecordState, Trim, Sampled, EdgeBin, BestEdge;
    RecordCounts(rec, Sample(rec, Keep(p, t), t), t);
  }

  /** Every run: one summary line for each window that ended, with exactly the samples taken in it. */
  lemma {:induction false} RunCounts(rec: Recording, gate: seq<Window>, earlier: Samples, now: int, events: seq<Event>)
      returns (n: nat)
    ensures var s := Run(rec, New(rec, gate, earlier, now), events);
      && Follows(rec, now, events, s.p) && s.p.windowStart == WindowOf(s.p.now)
      && Counted(Looks(rec, now, events), WindowOf(now), s.p, s.lines, n)
  {
    hide BestEdge, WindowOf, OnEvent, Counted, Trigger, Follows;
    if events == [] {
      n := 0;
      NewCounts(rec, gate, earlier, now);
    } else {
      var init, e := events[..|events| - 1], events[|events| - 1];
      var b := Run(rec, New(rec, gate, earlier, now), init);
      n := RunCounts(rec, gate, earlier, now, init);
      assert init + [e] == events;
      n := EventCounts(rec, now, init, e, b.p, b.lines, n);
    }
  }

  lemma NewCounts(rec: Recording, gate: seq<Window>, earlier: Samples, now: int)
    ensures var p := New(rec, gate, earlier, now);
      Follows(rec, now, [], p) && p.windowStart == WindowOf(p.now) && Counted([], WindowOf(now), p, [], 0)
  {
    hide Trigger;
  }

  /** A run with its end: one summary line for every window up to the last, with exactly the samples taken in it. */
  lemma WholeRunCounts(rec: Recording, gate: seq<Window>, earlier: Samples, now: int, events: seq<Event>, t: int)
      returns (n: nat)
    ensures var s := Run(rec, New(rec, gate, earlier, now), events);
      && Summaries(s.lines + Finish(rec, s.p, t).lines) == Expected(Looks(rec, now, events), WindowOf(now), n + 1)
      && Opens(WindowOf(now), n) == WindowOf(Max(Clock(now, events), t))
  {
    hide BestEdge, WindowOf, OnEvent, Counted, Trigger, Follows, Looks, Run, WriteSince, DropBefore, Expected;
    var s := Run(rec, New(rec, gate, earlier, now), events);
    n := RunCounts(rec, gate, earlier, now, events);
    var w := WriteSince(rec, s.p, t);
    WriteCounts(rec, s.p, t);
    var lines := s.lines + w.lines;
    LinesCount(s.p, w, Looks(rec, now, events), WindowOf(now), s.lines, n);
    WrittenFollows(rec, now, events, s.p, w.p);
    var left := OnEvent(rec, w.p, ClosedEvent(t, Left));
    n := EventCounts(rec, now, events, ClosedEvent(t, Left), w.p, lines, n);
    var one := events + [ClosedEvent(t, Left)];
    var right := OnEvent(rec, left.p, ClosedEvent(t, Right));
    n := EventCounts(rec, now, one, ClosedEvent(t, Right), left.p, lines + left.lines, n);
    var two := one + [ClosedEvent(t, Right)];
    var k := OnEvent(rec, right.p, TickEvent(t));
    n := EventCounts(rec, now, two, TickEvent(t), right.p, lines + left.lines + right.lines, n);
    NoLooks(rec, now, events, t);
    LastCounts(k.p, Looks(rec, now, events), WindowOf(now), lines + left.lines + right.lines + k.lines, n);
    FinishIs(rec, s.p, t);
    assert s.lines + Finish(rec, s.p, t).lines
      == lines + left.lines + right.lines + k.lines + [SummaryLine(k.p.windowStart, k.p.samples)];
    ClockOf(rec, now, events, t, k.p);
  }

  lemma WriteCounts(rec: Recording, p: PairState, from: int)
    ensures var s := WriteSince(rec, p, from); SameCounts(p, s.p) && Summaries(s.lines) == []
  {
    hide Marked, StartAt;
    var start := StartAt(p.ring, from);
    StatesOnly(p.ring, start, |p.ring|, rec.depth);
    NoSummaries(LinesOf(p.ring, start, |p.ring|, rec.depth));
  }

  lemma WrittenFollows(rec: Recording, now: int, events: seq<Event>, p: PairState, q: PairState)
    requires Follows(rec, now, events, p) && SameCounts(p, q)
    ensures Follows(rec, now, events, q)
  {
  }

  /** The end of a run, as its events. */
  lemma FinishIs(rec: Recording, p: PairState, t: int)
    ensures var w := WriteSince(rec, p, t);
      var left := OnEvent(rec, w.p, ClosedEvent(t, Left));
      var right := OnEvent(rec, left.p, ClosedEvent(t, Right));
      var k := OnEvent(rec, right.p, TickEvent(t));
      Finish(rec, p, t).lines
        == w.lines + left.lines + right.lines + k.lines + [SummaryLine(k.p.windowStart, k.p.samples)]
  {
    hide WriteSince, OnClosed, Tick;
  }

  /** Closing takes no sample. */
  lemma NoLooks(rec: Recording, now: int, events: seq<Event>, t: int)
    ensures Looks(rec, now, events + [ClosedEvent(t, Left)] + [ClosedEvent(t, Right)] + [TickEvent(t)])
      == Looks(rec, now, events)
  {
    var one := events + [ClosedEvent(t, Left)];
    var two := one + [ClosedEvent(t, Right)];
    var all := two + [TickEvent(t)];
    assert one[..|events|] == events && two[..|one|] == one && all[..|two|] == two;
    hide Clock;
    assert BookAfter(one, Left) == UNKNOWN == BookAfter(two, Left);
    assert Looks(rec, now, one) == Looks(rec, now, events);
    assert Looks(rec, now, two) == Looks(rec, now, one);
  }

  lemma LastCounts(p: PairState, looks: seq<Look>, first: int, lines: seq<Line>, n: nat)
    requires Counted(looks, first, p, lines, n)
    ensures Summaries(lines + [SummaryLine(p.windowStart, p.samples)]) == Expected(looks, first, n + 1)
    ensures Opens(first, n) == p.windowStart
  {
    hide InWindow;
    var last := SummaryLine(p.windowStart, p.samples);
    SummariesJoin(lines, [last]);
    assert [last][..0] == [];
  }

  lemma ClockOf(rec: Recording, now: int, events: seq<Event>, t: int, p: PairState)
    requires Follows(rec, now, events + [ClosedEvent(t, Left)] + [ClosedEvent(t, Right)] + [TickEvent(t)], p)
    ensures p.now == Max(Clock(now, events), t)
  {
    hide Looks, BookAfter;
    var one := events + [ClosedEvent(t, Left)];
    var two := one + [ClosedEvent(t, Right)];
    var all := two + [TickEvent(t)];
    assert one[..|events|] == events && two[..|one|] == one && all[..|two|] == two;
    assert Clock(now, one) == Max(Clock(now, events), t) == Clock(now, two) == Clock(now, all);
  }
}

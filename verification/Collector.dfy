/**
 One pair's recorder (SCREENER/src/collect.rs): the ring of recent states, the pre-roll, the tail,
 the trigger taken from the gate, and the lines written. The functions say what each step does; the
 class does it in place, line by line.
 */
module Collector {
  import opened Common
  import opened Quotes
  import opened Gates

  const PREROLL_MS := 1000
  const TAIL_MS := 2000

  /** What the data holds, for one pair. */
  datatype Recording = Recording(depth: real, percentile: real, span: int, minSamples: nat,
                                 interval: int, xemmMinBps: real, floor: real)

  datatype Trade = Trade(t: int, venue: Leg, price: real, size: real, buy: bool)

  function TradeTime(x: Trade): int { x.t }

  datatype Line =
    | BookLine(t: int, aBid: real, aAsk: real, lBid: real, lAsk: real, flags: nat)
    | TradeLine(trade: Trade)
    | GapLine(t: int, venue: Leg)
    | SummaryLine(start: int, samples: Samples)

  /** What reaches the pair; another pair's event moves only the clock. */
  datatype Event =
    | BookEvent(t: int, venue: Leg, bbo: Bbo)
    | TradeEvent(t: int, venue: Leg, price: real, size: real, buy: bool)
    | ClosedEvent(t: int, venue: Leg)
    | TickEvent(t: int)

  datatype Entry = Entry(t: int, a: Bbo, l: Bbo, written: bool)

  datatype PairState = PairState(
    a: Bbo, l: Bbo, ring: seq<Entry>, hotUntil: Option<int>, lastSample: Option<int>,
    gate: seq<Window>, earlier: Samples, trigger: real, samples: Samples, windowStart: int, now: int)

  datatype Step = Step(p: PairState, lines: seq<Line>)

  /** The gate at the floor, or the floor in warm-up. */
  function Trigger(rec: Recording, gate: seq<Window>): real {
    match Level(Total(gate), rec.floor, rec.percentile, rec.minSamples)
    case Some(g) => g
    case None => rec.floor
  }

  function New(rec: Recording, gate: seq<Window>, earlier: Samples, now: int): PairState {
    PairState(UNKNOWN, UNKNOWN, [Entry(now, UNKNOWN, UNKNOWN, false)], None, None,
              gate, earlier, Trigger(rec, gate), multiset{}, WindowOf(now), now)
  }

  function CloseWindow(rec: Recording, p: PairState, end: int): PairState {
    var gate := DropBefore(p.gate + [Window(p.windowStart, p.samples + p.earlier)], end - rec.span);
    p.(gate := gate, earlier := multiset{}, samples := multiset{}, trigger := Trigger(rec, gate), windowStart := end)
  }

  /** Closes every window that ended by the clock. */
  function Roll(rec: Recording, p: PairState): Step
    decreases p.now - p.windowStart
  {
    if p.now >= p.windowStart + WINDOW_MS then
      var rest := Roll(rec, CloseWindow(rec, p, p.windowStart + WINDOW_MS));
      Step(rest.p, [SummaryLine(p.windowStart, p.samples)] + rest.lines)
    else Step(p, [])
  }

  /** Moves the clock to `t`, never back. */
  function Tick(rec: Recording, p: PairState, t: int): Step {
    Roll(rec, p.(now := Max(p.now, t)))
  }

  /** Drops states until the second one is younger than the pre-roll. */
  function Trim(ring: seq<Entry>, t: int): seq<Entry> {
    if |ring| >= 2 && ring[1].t <= t - PREROLL_MS then Trim(ring[1..], t) else ring
  }

  /** The last state at or before `from`, or the oldest one kept. */
  function StartAt(ring: seq<Entry>, from: int): (r: nat)
    ensures r <= |ring| && (ring != [] ==> r < |ring|)
  {
    if ring == [] || ring[|ring| - 1].t <= from then Max(|ring| - 1, 0)
    else StartAt(ring[..|ring| - 1], from)
  }

  /** A state replaced within its millisecond is never the state in force. */
  predicate ReplacedAtOnce(ring: seq<Entry>, i: nat)
    requires i < |ring|
  {
    i + 1 < |ring| && ring[i + 1].t == ring[i].t
  }

  function BookLineOf(e: Entry, depth: real): Line {
    BookLine(e.t, e.a.bid, e.a.ask, e.l.bid, e.l.ask, DepthFlags(e.a, e.l, depth))
  }

  predicate Fresh(ring: seq<Entry>, i: nat)
    requires i < |ring|
  {
    !ring[i].written && !ReplacedAtOnce(ring, i)
  }

  /** The ring with the states from `start` to `end` marked as written. */
  function Marked(ring: seq<Entry>, start: nat, end: nat): (r: seq<Entry>)
    ensures |r| == |ring|
  {
    seq(|ring|, k requires 0 <= k < |ring| =>
      if start <= k < end && Fresh(ring, k) then ring[k].(written := true) else ring[k])
  }

  /** The lines of the states from `start` to `end` that are not written yet. */
  function LinesOf(ring: seq<Entry>, start: nat, end: nat, depth: real): seq<Line>
    requires end <= |ring|
  {
    if end <= start then []
    else LinesOf(ring, start, end - 1, depth) + if Fresh(ring, end - 1) then [BookLineOf(ring[end - 1], depth)] else []
  }

  function WriteSince(rec: Recording, p: PairState, from: int): Step {
    var start := StartAt(p.ring, from);
    Step(p.(ring := Marked(p.ring, start, |p.ring|)), LinesOf(p.ring, start, |p.ring|, rec.depth))
  }

  predicate Sampled(rec: Recording, p: PairState, t: int) {
    var edge := BestEdge(p.a, p.l, rec.depth);
    edge.Some? && edge.value.bps >= rec.floor && (p.lastSample.Some? ==> t - p.lastSample.value >= rec.interval)
  }

  predicate Triggers(rec: Recording, a: Bbo, l: Bbo, trigger: real) {
    var edge := BestEdge(a, l, rec.depth);
    edge.Some? && edge.value.bps >= trigger
  }

  /** Keeps the state for the pre-roll. */
  function Keep(p: PairState, t: int): PairState {
    p.(ring := Trim(p.ring + [Entry(t, p.a, p.l, false)], t))
  }

  /** Samples the state for the gate, as the bot does. */
  function Sample(rec: Recording, p: PairState, t: int): PairState {
    if Sampled(rec, p, t)
    then p.(samples := p.samples + multiset{EdgeBin(BestEdge(p.a, p.l, rec.depth).value.bps)}, lastSample := Some(t))
    else p
  }

  /** Records the state if it reaches the trigger or falls in a tail. */
  function RecordState(rec: Recording, p: PairState, t: int): Step {
    var trigger := Triggers(rec, p.a, p.l, p.trigger);
    var w := if trigger || (p.hotUntil.Some? && t <= p.hotUntil.value) then WriteSince(rec, p, t) else Step(p, []);
    if trigger then Step(w.p.(hotUntil := Some(t + TAIL_MS)), w.lines) else w
  }

  /** The pair's books changed at `t`. */
  function Changed(rec: Recording, p: PairState, t: int): Step {
    RecordState(rec, Sample(rec, Keep(p, t), t), t)
  }

  function SetBook(p: PairState, venue: Leg, bbo: Bbo): PairState {
    if venue == Left then p.(a := bbo) else p.(l := bbo)
  }

  /** The trade could fill a quote priced from one of the ring's states. */
  predicate Recorded(rec: Recording, ring: seq<Entry>, x: Trade) {
    exists i :: 0 <= i < |ring| && CouldFill(x.venue, x.buy, x.price, ring[i].a, ring[i].l, rec.xemmMinBps, rec.depth)
  }

  function OnTrade(rec: Recording, p: PairState, x: Trade): Step {
    if Recorded(rec, p.ring, x) then
      var w := WriteSince(rec, p, x.t - PREROLL_MS);
      Step(w.p.(hotUntil := Some(x.t + TAIL_MS)), w.lines + [TradeLine(x)])
    else Step(p, [])
  }

  function OnClosed(rec: Recording, p: PairState, t: int, venue: Leg): Step {
    var k := Tick(rec, p, t);
    var c := Changed(rec, SetBook(k.p, venue, UNKNOWN), k.p.now);
    Step(c.p, k.lines + [GapLine(k.p.now, venue)] + c.lines)
  }

  function OnEvent(rec: Recording, p: PairState, e: Event): Step {
    match e
    case TickEvent(t) => Tick(rec, p, t)
    case ClosedEvent(t, venue) => OnClosed(rec, p, t, venue)
    case BookEvent(t, venue, bbo) =>
      var k := Tick(rec, p, t);
      var c := Changed(rec, SetBook(k.p, venue, bbo), k.p.now);
      Step(c.p, k.lines + c.lines)
    case TradeEvent(t, venue, price, size, buy) =>
      var k := Tick(rec, p, t);
      var c := OnTrade(rec, k.p, Trade(k.p.now, venue, price, size, buy));
      Step(c.p, k.lines + c.lines)
  }

  function Run(rec: Recording, p: PairState, events: seq<Event>): Step {
    if events == [] then Step(p, [])
    else
      var before := Run(rec, p, events[..|events| - 1]);
      var s := OnEvent(rec, before.p, events[|events| - 1]);
      Step(s.p, before.lines + s.lines)
  }

  /** Ends the run: the closing mark, both connections closed, the running window summarized. */
  function Finish(rec: Recording, p: PairState, t: int): Step {
    var w := WriteSince(rec, p, t);
    var left := OnClosed(rec, w.p, t, Left);
    var right := OnClosed(rec, left.p, t, Right);
    var k := Tick(rec, right.p, t);
    Step(CloseWindow(rec, k.p, k.p.now),
         w.lines + left.lines + right.lines + k.lines + [SummaryLine(k.p.windowStart, k.p.samples)])
  }

  // ---------------------------------------------------------------- the recorder itself

  class Recorder {
    const rec: Recording
    const gate: Gate
    var a: Bbo
    var l: Bbo
    var ring: seq<Entry>
    var hotUntil: Option<int>
    var lastSample: Option<int>
    var earlier: Samples
    var trigger: real
    var samples: Samples
    var windowStart: int
    var now: int

    ghost predicate Valid()
      reads this, gate
    {
      gate.Valid()
    }

    ghost function View(): PairState
      reads this, gate
    {
      PairState(a, l, ring, hotUntil, lastSample, gate.windows, earlier, trigger, samples, windowStart, now)
    }

    constructor (rec: Recording, gate: Gate, earlier: Samples, now: int)
      requires gate.Valid()
      ensures Valid() && this.rec == rec && this.gate == gate
      ensures View() == New(rec, gate.windows, earlier, now)
    {
      this.rec, this.gate, this.earlier, this.now := rec, gate, earlier, now;
      a, l, ring := UNKNOWN, UNKNOWN, [Entry(now, UNKNOWN, UNKNOWN, false)];
      hotUntil, lastSample, samples, windowStart := None, None, multiset{}, WindowOf(now);
      var level := Level(gate.total, rec.floor, rec.percentile, rec.minSamples);
      trigger := if level.Some? then level.value else rec.floor;
    }

    method MoveTrigger()
      requires Valid()
      modifies this`trigger
      ensures Valid() && trigger == Trigger(rec, gate.windows)
    {
      var level := gate.LevelNow(rec.floor, rec.percentile, rec.minSamples);
      trigger := if level.Some? then level.value else rec.floor;
    }

    method CloseWindowAt(end: int) returns (line: Line)
      requires Valid()
      modifies this, gate
      ensures Valid() && View() == CloseWindow(rec, old(View()), end)
      ensures line == SummaryLine(old(windowStart), old(samples)) && windowStart == end && now == old(now)
    {
      hide Total, DropBefore;
      ghost var p := View();
      line := SummaryLine(windowStart, samples);
      gate.Push(windowStart, samples + earlier);
      gate.Expire(end - rec.span);
      assert gate.windows == DropBefore(p.gate + [Window(p.windowStart, p.samples + p.earlier)], end - rec.span);
      MoveTrigger();
      samples, earlier, windowStart := multiset{}, multiset{}, end;
    }

    method CloseNext() returns (line: Line)
      requires Valid() && now >= windowStart + WINDOW_MS
      modifies this, gate
      ensures Valid() && now == old(now) && windowStart == old(windowStart) + WINDOW_MS
      ensures Roll(rec, old(View())) == Step(Roll(rec, View()).p, [line] + Roll(rec, View()).lines)
    {
      hide CloseWindow;
      line := CloseWindowAt(windowStart + WINDOW_MS);
    }

    method MoveClock(t: int) returns (lines: seq<Line>)
      requires Valid()
      modifies this, gate
      ensures Valid() && Step(View(), lines) == Tick(rec, old(View()), t)
    {
      hide CloseWindow;
      now := Max(now, t);
      lines := [];
      ghost var all := Roll(rec, View());
      while now >= windowStart + WINDOW_MS
        invariant Valid()
        invariant all.p == Roll(rec, View()).p
        invariant all.lines == lines + Roll(rec, View()).lines
        decreases now - windowStart
      {
        var line := CloseNext();
        assert lines + ([line] + Roll(rec, View()).lines) == (lines + [line]) + Roll(rec, View()).lines;
        lines := lines + [line];
      }
    }

    method WriteRingSince(from: int) returns (lines: seq<Line>)
      requires Valid()
      modifies this`ring
      ensures Valid() && Step(View(), lines) == WriteSince(rec, old(View()), from)
    {
      lines := [];
      ghost var was, start := ring, StartAt(ring, from);
      var i := StartAt(ring, from);
      while i < |ring|
        invariant start <= i <= |ring| == |was|
        invariant forall k :: 0 <= k < |ring| ==> ring[k].t == was[k].t && (k >= i ==> ring[k] == was[k])
        invariant ring == Marked(was, start, i)
        invariant lines == LinesOf(was, start, i, rec.depth)
      {
        if !ring[i].written && !(i + 1 < |ring| && ring[i + 1].t == ring[i].t) {
          lines := lines + [BookLineOf(ring[i], rec.depth)];
          ring := ring[i := ring[i].(written := true)];
        }
        i := i + 1;
      }
    }

    method KeepState(t: int)
      requires Valid()
      modifies this`ring
      ensures Valid() && View() == Keep(old(View()), t)
    {
      ring := ring + [Entry(t, a, l, false)];
      while |ring| >= 2 && ring[1].t <= t - PREROLL_MS
        invariant Trim(ring, t) == Trim(old(ring) + [Entry(t, a, l, false)], t)
      {
        ring := ring[1..];
      }
    }

    method SampleState(t: int)
      requires Valid()
      modifies this`samples, this`lastSample
      ensures Valid() && View() == Sample(rec, old(View()), t)
    {
      var edge := BestEdge(a, l, rec.depth);
      if edge.Some? && edge.value.bps >= rec.floor && (lastSample.Some? ==> t - lastSample.value >= rec.interval) {
        assert Sampled(rec, View(), t);
        samples := samples + multiset{EdgeBin(edge.value.bps)};
        lastSample := Some(t);
      } else {
        assert !Sampled(rec, View(), t);
      }
    }

    method OnChange(t: int) returns (lines: seq<Line>)
      requires Valid()
      modifies this
      ensures Valid() && Step(View(), lines) == Changed(rec, old(View()), t)
    {
      KeepState(t);
      SampleState(t);
      var edge := BestEdge(a, l, rec.depth);
      var fires := edge.Some? && edge.value.bps >= trigger;
      assert fires == Triggers(rec, a, l, trigger);
      lines := [];
      if fires || (hotUntil.Some? && t <= hotUntil.value) {
        lines := WriteRingSince(t);
      }
      if fires {
        hotUntil := Some(t + TAIL_MS);
      }
    }

    method SetBookOf(venue: Leg, bbo: Bbo)
      requires Valid()
      modifies this
      ensures Valid() && View() == SetBook(old(View()), venue, bbo)
    {
      match venue {
        case Left => a := bbo;
        case Right => l := bbo;
      }
    }

    method Closed(venue: Leg, t: int) returns (lines: seq<Line>)
      requires Valid()
      modifies this, gate
      ensures Valid() && Step(View(), lines) == OnClosed(rec, old(View()), t, venue)
    {
      lines := MoveClock(t);
      lines := lines + [GapLine(now, venue)];
      SetBookOf(venue, UNKNOWN);
      var more := OnChange(now);
      lines := lines + more;
    }

    method Traded(x: Trade) returns (lines: seq<Line>)
      requires Valid()
      modifies this`ring, this`hotUntil
      ensures Valid() && Step(View(), lines) == OnTrade(rec, old(View()), x)
    {
      lines := [];
      if exists i ::
          0 <= i < |ring| && CouldFill(x.venue, x.buy, x.price, ring[i].a, ring[i].l, rec.xemmMinBps, rec.depth)
      {
        lines := WriteRingSince(x.t - PREROLL_MS);
        hotUntil := Some(x.t + TAIL_MS);
        lines := lines + [TradeLine(x)];
      }
    }

    method Receive(e: Event) returns (lines: seq<Line>)
      requires Valid()
      modifies this, gate
      ensures Valid() && Step(View(), lines) == OnEvent(rec, old(View()), e)
    {
      match e {
        case TickEvent(t) =>
          lines := MoveClock(t);
        case ClosedEvent(t, venue) =>
          lines := Closed(venue, t);
        case BookEvent(t, venue, bbo) =>
          lines := MoveClock(t);
          SetBookOf(venue, bbo);
          var more := OnChange(now);
          lines := lines + more;
        case TradeEvent(t, venue, price, size, buy) =>
          lines := MoveClock(t);
          var more := Traded(Trade(now, venue, price, size, buy));
          lines := lines + more;
      }
    }

    method End(t: int) returns (lines: seq<Line>)
      requires Valid()
      modifies this, gate
      ensures Valid() && Step(View(), lines) == Finish(rec, old(View()), t)
    {
      lines := WriteRingSince(t);
      var left := Closed(Left, t);
      var right := Closed(Right, t);
      var last := MoveClock(t);
      var line := CloseWindowAt(now);
      lines := lines + left + right + last + [line];
    }
  }
}

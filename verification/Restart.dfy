/**
 A recorder restarted from its own summary lines (SCREENER/src/collect.rs), even in the middle of a window,
 has at every later moment the gate of all the summaries written so far.
 */
module Restart {
  import opened Common
  import opened Gates
  import opened Collector
  import opened Report
  import opened History
  import opened Replay
  import opened Moments

  /** The gate counts what the windows of the span before the current one count, and gives their trigger. */
  ghost predicate GateOf(rec: Recording, p: PairState, windows: seq<Window>) {
    && (forall b {:trigger Recount(p.gate, b)} ::
          Recount(p.gate, b) == Recount(InSpan(windows, p.windowStart - rec.span, p.windowStart), b))
    && p.trigger == TriggerAt(rec, windows, p.windowStart)
    && (forall b :: p.earlier[b] == Recount(InSpan(windows, p.windowStart, p.windowStart + 1), b))
    && p.windowStart == WindowOf(p.now)
  }

  /** From any history of windows, after any events: the gate of all the windows, those written since included. */
  lemma GateFollows(rec: Recording, base: seq<Window>, now: int, events: seq<Event>)
    requires rec.span >= 0 && rec.depth > 0.0 && SortedBy(base, StartOf)
    requires forall w :: w in base ==> w.start <= WindowOf(now)
    ensures var r := Run(rec, Start(rec, base, now), events);
      GateOf(rec, r.p, AddAll(Data([], [], base), r.lines).windows)
  {
    hide Inv, AddAll, Run, Start, SeeAll, GateOf;
    var d, p := Data([], [], base), Start(rec, base, now);
    var h := StartKeeps(rec, base, now);
    var g, kept := RunKeeps(rec, p, Opening(now), h, d, [], events);
    var r := Run(rec, p, events);
    InvGate(rec, r.p, SeeAll(Opening(now), events), g, AddAll(d, r.lines), kept);
  }

  lemma InvGate(rec: Recording, p: PairState, m: Market, h: seq<Entry>, d: Data, kept: seq<bool>)
    requires rec.span >= 0 && Inv(rec, p, m, h, d, kept)
    ensures GateOf(rec, p, d.windows)
  {
    hide TradeMoments, TriggerMoments, Agrees, Shape, InSpan, Recount, TriggerAt, WindowOf;
    InSpanAll(p.gate, p.windowStart - rec.span, p.windowStart);
    forall b ensures Recount(p.gate, b) == Recount(InSpan(d.windows, p.windowStart - rec.span, p.windowStart), b) {
      assert Recount(InSpan(p.gate, p.windowStart - rec.span, p.windowStart), b)
        == Recount(InSpan(d.windows, p.windowStart - rec.span, p.windowStart), b);
    }
  }

  /**
   A second run, started no earlier than the first ended, from what the first wrote: after any events its
   gate is that of every summary of both runs within the span, as if there had been no restart.
   */
  lemma RestartKeepsGate(rec: Recording, base: seq<Window>, now: int, events: seq<Event>, end: int, now': int,
          events': seq<Event>)
    requires rec.span >= 0 && rec.depth > 0.0 && SortedBy(base, StartOf) && FullStream(now, events, end).now <= now'
    requires forall w :: w in base ==> w.start <= WindowOf(now)
    ensures var written := LoadRun(base, Record(rec, base, now, events, end)).windows;
      var r := Run(rec, Start(rec, written, now'), events');
      GateOf(rec, r.p, AddAll(Data([], [], written), r.lines).windows)
  {
    hide GateOf, AddAll, Record, Run, Start, FullStream, WindowOf, Agrees, TradeMoments, TriggerMoments, Timely, Chosen;
    var h, kept, hot, clock := RunTells(rec, base, now, events, end);
    var d := AddAll(Data([], [], base), Record(rec, base, now, events, end));
    assert LoadRun(base, Record(rec, base, now, events, end)).windows == d.windows by { SortedWindows(d); }
    WindowsGrow(clock, now');
    GateFollows(rec, d.windows, now', events');
  }

  lemma SortedWindows(d: Data)
    requires SortedBy(d.windows, StartOf)
    ensures Sorted(d).windows == d.windows
  {
    SortByFixed(d.windows, StartOf);
  }
}

/**
 The history behind the recorder's ring: every state it was shown, each with whether it has been
 written. The ring is its end, and the recorded lines, sorted, are its written states.
 */
module History {
  import opened Common
  import opened Quotes
  import opened Collector
  import opened Report

  ghost predicate Timely(h: seq<Entry>) {
    forall i, j :: 0 <= i < j < |h| ==> h[i].t <= h[j].t
  }

  function StateOf(e: Entry): State { State(e.t, e.a, e.l) }

  function StatesOf(h: seq<Entry>): (r: seq<State>)
    ensures |r| == |h|
  {
    seq(|h|, i requires 0 <= i < |h| => StateOf(h[i]))
  }

  /** The written states, as the report reads them back. */
  function Kept(h: seq<Entry>, depth: real): seq<State> {
    if h == [] then []
    else Kept(h[..|h| - 1], depth) + if h[|h| - 1].written then [Loaded(StateOf(h[|h| - 1]), depth)] else []
  }

  /** The index of the last state at or before `x`, or -1. */
  function LastAt(h: seq<Entry>, x: int): (r: int)
    ensures -1 <= r < |h|
    ensures r >= 0 ==> h[r].t <= x
    ensures forall k :: r < k < |h| ==> h[k].t > x
  {
    if h == [] then -1 else if h[|h| - 1].t <= x then |h| - 1 else LastAt(h[..|h| - 1], x)
  }

  /** Every lookup by a time in `[lo, hi]` finds a written state, or none at all. */
  ghost predicate Covered(h: seq<Entry>, lo: int, hi: int) {
    forall x :: lo <= x <= hi && LastAt(h, x) >= 0 ==> h[LastAt(h, x)].written
  }

  /** The same states, at least as many of them written. */
  ghost predicate Grows(h: seq<Entry>, g: seq<Entry>) {
    |h| == |g| && forall i :: 0 <= i < |h| ==> g[i] == h[i] || g[i] == h[i].(written := true)
  }

  lemma CoveredGrows(h: seq<Entry>, g: seq<Entry>, lo: int, hi: int)
    requires Grows(h, g) && Covered(h, lo, hi)
    ensures Covered(g, lo, hi)
  {
    forall x | lo <= x <= hi && LastAt(g, x) >= 0 ensures g[LastAt(g, x)].written {
      assert LastAt(g, x) == LastAt(h, x);
    }
  }

  /** A state arriving leaves the past covered, and a tail too if it is written. */
  lemma PushCovers(h: seq<Entry>, e: Entry, g: seq<Entry>, lo: int, hi: int)
    requires Timely(h + [e]) && Grows(h + [e], g) && Covered(h, lo, hi)
    requires hi >= e.t ==> g[|h|].written
    ensures Covered(g, lo, hi)
  {
    forall x | lo <= x <= hi && LastAt(g, x) >= 0 ensures g[LastAt(g, x)].written {
      var k := LastAt(g, x);
      if k < |h| {
        assert (h + [e])[|h|] == e && g[|h|].t == e.t > x;
        assert k == LastAt(h, x) by {
          assert forall i :: 0 <= i < |h| ==> g[i].t == (h + [e])[i].t == h[i].t;
        }
        assert h[k].written && (h + [e])[k] == h[k];
      }
    }
  }

  // ---------------------------------------------------------------- lookups

  lemma {:induction false} KeptAt(h: seq<Entry>, x: int, depth: real)
    ensures LastAt(h, x) == -1 ==> StateAt(Kept(h, depth), x) == None
    ensures LastAt(h, x) >= 0 && h[LastAt(h, x)].written
        ==> StateAt(Kept(h, depth), x) == Some(Loaded(StateOf(h[LastAt(h, x)]), depth))
  {
    if h != [] {
      var init, e := h[..|h| - 1], h[|h| - 1];
      KeptAt(init, x, depth);
      var k := Kept(init, depth);
      assert (k + [Loaded(StateOf(e), depth)])[..|k|] == k && k + [] == k;
    }
  }

  lemma {:induction false} FullAt(h: seq<Entry>, x: int)
    ensures StateAt(StatesOf(h), x) == if LastAt(h, x) == -1 then None else Some(StateOf(h[LastAt(h, x)]))
  {
    if h == [] {
      assert StatesOf(h) == [];
    } else {
      FullAt(h[..|h| - 1], x);
      assert StatesOf(h)[..|h| - 1] == StatesOf(h[..|h| - 1]);
    }
  }

  lemma LoadedTime(s: State, depth: real)
    ensures TimeOf(Loaded(s, depth)) == s.t
  {
  }

  lemma {:induction false} KeptTimes(h: seq<Entry>, depth: real, t: int)
    requires forall i :: 0 <= i < |h| ==> h[i].t <= t
    ensures forall s :: s in Kept(h, depth) ==> s.t <= t
  {
    if h != [] { KeptTimes(h[..|h| - 1], depth, t); }
  }

  // ---------------------------------------------------------------- writing

  /** Writing one more state is inserting it by time. */
  lemma {:induction false} KeptInserts(h: seq<Entry>, i: nat, depth: real)
    requires i < |h| && Timely(h) && Fresh(h, i)
    ensures Kept(h[i := h[i].(written := true)], depth)
      == InsertBy(Kept(h, depth), Loaded(StateOf(h[i]), depth), TimeOf)
  {
    hide Loaded;
    assert TimeOf(Loaded(StateOf(h[i]), depth)) == h[i].t by { LoadedTime(StateOf(h[i]), depth); }
    assert TimeOf(Loaded(StateOf(h[|h| - 1]), depth)) == h[|h| - 1].t by { LoadedTime(StateOf(h[|h| - 1]), depth); }
    var init, e, g := h[..|h| - 1], h[|h| - 1], h[i := h[i].(written := true)];
    var x := Loaded(StateOf(h[i]), depth);
    if i == |h| - 1 {
      assert g[..|g| - 1] == init;
      KeptTimes(init, depth, e.t);
      assert Kept(h, depth) == Kept(init, depth);
      if Kept(init, depth) != [] { assert Kept(init, depth)[|Kept(init, depth)| - 1] in Kept(init, depth); }
    } else {
      assert h[i + 1].t > h[i].t && e.t >= h[i + 1].t;
      assert g[..|g| - 1] == init[i := init[i].(written := true)];
      KeptInserts(init, i, depth);
      var k := Kept(init, depth);
      assert (k + [Loaded(StateOf(e), depth)])[..|k|] == k && k + [] == k;
      assert e.written || Kept(g, depth) == Kept(g[..|g| - 1], depth) + [];
    }
  }

  lemma MarkedStep(h: seq<Entry>, start: nat, end: nat)
    requires start <= end < |h|
    ensures Marked(h, start, end + 1)
         == if Fresh(h, end) then Marked(h, start, end)[end := h[end].(written := true)] else Marked(h, start, end)
    ensures Fresh(h, end) ==> Fresh(Marked(h, start, end), end)
  {
    var g, g' := Marked(h, start, end), Marked(h, start, end + 1);
    assert g[end] == h[end] && (end + 1 < |h| ==> g[end + 1].t == h[end + 1].t);
    if Fresh(h, end) {
      assert g' == g[end := h[end].(written := true)];
    } else {
      assert g' == g;
    }
  }

  lemma MarkedTimes(h: seq<Entry>, start: nat, end: nat)
    ensures Timely(h) ==> Timely(Marked(h, start, end))
    ensures forall i :: 0 <= i < |h| ==> StateOf(Marked(h, start, end)[i]) == StateOf(h[i])
  {
    var g := Marked(h, start, end);
    assert forall i :: 0 <= i < |h| ==> g[i].t == h[i].t;
  }

  /** The data's states, sorted, are the written states of the history. */
  ghost predicate Agrees(d: Data, h: seq<Entry>, depth: real) {
    SortBy(d.states, TimeOf) == Kept(h, depth)
  }

  /** Written lines read back and sorted are the marked states. */
  lemma {:induction false} LinesAreKept(h: seq<Entry>, start: nat, end: nat, depth: real, d: Data)
    requires start <= end <= |h| && Timely(h) && Agrees(d, h, depth)
    ensures var d' := AddAll(d, LinesOf(h, start, end, depth));
      Agrees(d', Marked(h, start, end), depth) && d' == d.(states := d'.states)
    decreases end
  {
    if start == end {
      assert Marked(h, start, end) == h;
    } else {
      LinesAreKept(h, start, end - 1, depth, d);
      LinesStep(h, start, end - 1, depth, d);
    }
  }

  lemma LinesStep(h: seq<Entry>, start: nat, end: nat, depth: real, d: Data)
    requires start <= end < |h| && Timely(h)
    requires Agrees(AddAll(d, LinesOf(h, start, end, depth)), Marked(h, start, end), depth)
    ensures Agrees(AddAll(d, LinesOf(h, start, end + 1, depth)), Marked(h, start, end + 1), depth)
    ensures var d0, d1 := AddAll(d, LinesOf(h, start, end, depth)), AddAll(d, LinesOf(h, start, end + 1, depth));
      d1 == d0.(states := d1.states)
  {
    hide Loaded, BookLineOf, SortBy, Kept, Marked;
    var g, ls := Marked(h, start, end), LinesOf(h, start, end, depth);
    MarkedStep(h, start, end);
    if Fresh(h, end) {
      MarkedTimes(h, start, end);
      KeptInserts(g, end, depth);
      OneMore(AddAll(d, ls), h[end], depth);
      AddAllConcat(d, ls, [BookLineOf(h[end], depth)]);
    } else {
      assert ls + [] == ls;
    }
  }

  lemma OneMore(d: Data, e: Entry, depth: real)
    ensures var d' := AddAll(d, [BookLineOf(e, depth)]);
      && d' == d.(states := d'.states)
      && SortBy(d'.states, TimeOf) == InsertBy(SortBy(d.states, TimeOf), Loaded(StateOf(e), depth), TimeOf)
  {
    var line, x := BookLineOf(e, depth), Loaded(StateOf(e), depth);
    assert [line][..0] == [];
    assert AddAll(d, [line][..0]) == d;
    assert ReadBook(line) == x;
    assert (d.states + [x])[..|d.states|] == d.states;
  }

  lemma MarkedGrows(h: seq<Entry>, start: nat)
    requires start < |h|
    ensures Grows(h, Marked(h, start, |h|)) && Marked(h, start, |h|)[|h| - 1].written
  {
  }

  /** Everything in force at `from` or later is written. */
  lemma MarkedCovers(h: seq<Entry>, start: nat, from: int, hi: int)
    requires start < |h| && Timely(h) && (start == 0 || h[start].t <= from)
    ensures Covered(Marked(h, start, |h|), from, hi)
  {
    var g := Marked(h, start, |h|);
    forall x | from <= x <= hi && LastAt(g, x) >= 0 ensures g[LastAt(g, x)].written {
      var k := LastAt(g, x);
      assert g[start].t == h[start].t;
      assert k >= start;
      assert k + 1 < |h| ==> g[k + 1].t > x;
    }
  }

  // ---------------------------------------------------------------- the ring is the end of the history

  /** The ring is the end of the history, and reaches back at least a pre-roll unless nothing was dropped. */
  ghost predicate Shape(p: PairState, h: seq<Entry>) {
    && 0 < |p.ring| <= |h| && h[|h| - |p.ring|..] == p.ring
    && Timely(h) && h[|h| - 1].t <= p.now
    && (|p.ring| < |h| ==> p.ring[0].t <= h[|h| - 1].t - PREROLL_MS)
  }

  lemma {:induction false} LinesOfEnd(h: seq<Entry>, lo: nat, start: nat, end: nat, depth: real)
    requires lo + end <= |h| && start <= end
    ensures LinesOf(h, lo + start, lo + end, depth) == LinesOf(h[lo..], start, end, depth)
    decreases end
  {
    if start < end {
      LinesOfEnd(h, lo, start, end - 1, depth);
      assert h[lo..][end - 1] == h[lo + end - 1];
      assert end < |h[lo..]| ==> h[lo..][end] == h[lo + end];
    }
  }

  lemma MarkedEnd(h: seq<Entry>, lo: nat, start: nat)
    requires lo + start <= |h|
    ensures Marked(h, lo + start, |h|)[lo..] == Marked(h[lo..], start, |h| - lo)
    ensures Marked(h, lo + start, |h|)[..lo] == h[..lo]
  {
    var r := h[lo..];
    assert forall k :: 0 <= k < |r| ==> r[k] == h[lo + k];
    assert forall k :: 0 <= k < |r| ==> Fresh(r, k) == Fresh(h, lo + k);
    forall k | 0 <= k < |r| ensures Marked(h, lo + start, |h|)[lo..][k] == Marked(r, start, |r|)[k] {
      assert Marked(h, lo + start, |h|)[lo..][k] == Marked(h, lo + start, |h|)[lo + k];
    }
  }

  lemma {:induction false} StartAtIs(ring: seq<Entry>, from: int)
    requires ring != []
    ensures ring[0].t <= from ==> ring[StartAt(ring, from)].t <= from
    ensures (forall k :: 0 <= k < |ring| ==> ring[k].t > from) ==> StartAt(ring, from) == 0
  {
    if |ring| > 1 && ring[|ring| - 1].t > from { StartAtIs(ring[..|ring| - 1], from); }
  }

  /** Where a write reaching back to `from` starts in the history. */
  lemma StartReaches(p: PairState, h: seq<Entry>, from: int)
    requires Shape(p, h) && from >= h[|h| - 1].t - PREROLL_MS
    ensures var i := |h| - |p.ring| + StartAt(p.ring, from); i < |h| && (i == 0 || h[i].t <= from)
  {
    hide StartAt;
    var lo, start := |h| - |p.ring|, StartAt(p.ring, from);
    StartAtIs(p.ring, from);
    assert p.ring[0] == h[lo] && p.ring[start] == h[lo + start];
    if p.ring[0].t > from {
      forall k | 0 <= k < |p.ring| ensures p.ring[k].t > from {
        assert p.ring[k] == h[lo + k] && h[lo + k].t >= h[lo].t;
      }
    }
  }

  lemma MarkedShape(p: PairState, h: seq<Entry>, start: nat)
    requires Shape(p, h) && start < |p.ring|
    ensures var lo := |h| - |p.ring|;
      Shape(p.(ring := Marked(p.ring, start, |p.ring|)), Marked(h, lo + start, |h|))
  {
    hide Marked, Timely;
    var lo := |h| - |p.ring|;
    MarkedEnd(h, lo, start);
    MarkedTimes(h, lo + start, |h|);
    MarkedTimes(p.ring, start, |p.ring|);
    var g, r := Marked(h, lo + start, |h|), Marked(p.ring, start, |p.ring|);
    assert StateOf(g[|h| - 1]) == StateOf(h[|h| - 1]) && StateOf(r[0]) == StateOf(p.ring[0]);
  }

  /** Writing since a time keeps the picture, and covers everything from that time within the pre-roll on. */
  lemma WriteKeeps(rec: Recording, p: PairState, h: seq<Entry>, d: Data, from: int) returns (g: seq<Entry>)
    requires Shape(p, h) && Agrees(d, h, rec.depth)
    ensures var w := WriteSince(rec, p, from);
      && Shape(w.p, g) && w.p == p.(ring := w.p.ring)
      && Agrees(AddAll(d, w.lines), g, rec.depth)
      && AddAll(d, w.lines) == d.(states := AddAll(d, w.lines).states)
    ensures Grows(h, g) && g[|h| - 1].written
    ensures from >= h[|h| - 1].t - PREROLL_MS ==> forall hi :: Covered(g, from, hi)
  {
    hide AddAll, Agrees, LinesOf, Marked, Timely, Grows, Covered;
    var lo, start := |h| - |p.ring|, StartAt(p.ring, from);
    g := Marked(h, lo + start, |h|);
    MarkedGrows(h, lo + start);
    MarkedShape(p, h, start);
    assert LinesOf(h, lo + start, |h|, rec.depth) == WriteSince(rec, p, from).lines by {
      LinesOfEnd(h, lo, start, |p.ring|, rec.depth);
      assert lo + |p.ring| == |h| && h[lo..] == p.ring;
    }
    LinesAreKept(h, lo + start, |h|, rec.depth, d);
    if from >= h[|h| - 1].t - PREROLL_MS {
      StartReaches(p, h, from);
      forall hi ensures Covered(g, from, hi) { MarkedCovers(h, lo + start, from, hi); }
    }
  }

  lemma {:induction false} TrimIsEnd(ring: seq<Entry>, t: int) returns (n: nat)
    requires ring != []
    ensures n < |ring| && Trim(ring, t) == ring[n..] && (n > 0 ==> ring[n].t <= t - PREROLL_MS)
    decreases |ring|
  {
    n := 0;
    if |ring| >= 2 && ring[1].t <= t - PREROLL_MS {
      var m := TrimIsEnd(ring[1..], t);
      n := m + 1;
      assert ring[1..][m..] == ring[n..];
      assert m > 0 ==> ring[1..][m] == ring[n];
    }
  }

  lemma TimelyPush(h: seq<Entry>, e: Entry)
    requires Timely(h) && (h != [] ==> h[|h| - 1].t <= e.t)
    ensures Timely(h + [e])
  {
    var g := h + [e];
    forall i, j | 0 <= i < j < |g| ensures g[i].t <= g[j].t {
      if j == |h| { assert h[i].t <= h[|h| - 1].t; }
    }
  }

  /** Keeping a new state extends the history by it. */
  lemma KeepShape(p: PairState, h: seq<Entry>, t: int)
    requires Shape(p, h) && t == p.now
    ensures Shape(Keep(p, t), h + [Entry(t, p.a, p.l, false)])
  {
    hide Timely, Trim;
    var e := Entry(t, p.a, p.l, false);
    TimelyPush(h, e);
    var g, pushed, q := h + [e], p.ring + [e], Keep(p, t);
    var n := TrimIsEnd(pushed, t);
    var lo := |h| - |p.ring|;
    assert g[lo..] == pushed;
    assert g[lo + n..] == pushed[n..] == q.ring;
    assert |g| - |q.ring| == lo + n;
    if |q.ring| < |g| && n == 0 { assert q.ring[0] == p.ring[0]; }
  }
}

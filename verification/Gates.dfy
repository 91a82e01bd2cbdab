/**
 The percentile gate: samples counted per edge bin over a moving span of windows, the running total
 that indexes them, and the order-statistics facts the recording rests on (SCREENER/src/collect.rs).
 */
module Gates {
  import opened Common
  import opened Reals

  const WINDOW_MS := 300000
  const EDGE_BIN_BPS := 0.25

  /** Samples counted per bin. */
  type Samples = multiset<int>

  datatype Window = Window(start: int, samples: Samples)

  function StartOf(w: Window): int { w.start }

  function EdgeBin(bps: real): int { (bps / EDGE_BIN_BPS).Floor }

  /** The window holding `t`. */
  function WindowOf(t: int): int { t - t % WINDOW_MS }

  function Total(ws: seq<Window>): Samples {
    if ws == [] then multiset{} else Total(ws[..|ws| - 1]) + ws[|ws| - 1].samples
  }

  /** The per-bin recount of the windows. */
  function Recount(ws: seq<Window>, b: int): nat {
    if ws == [] then 0 else Recount(ws[..|ws| - 1], b) + ws[|ws| - 1].samples[b]
  }

  /** The windows that start in `[lo, hi)`. */
  function InSpan(ws: seq<Window>, lo: int, hi: int): seq<Window> {
    if ws == [] then []
    else InSpan(ws[..|ws| - 1], lo, hi) + (if lo <= ws[|ws| - 1].start < hi then [ws[|ws| - 1]] else [])
  }

  /** Drops windows from the front while they started before `since`. */
  function DropBefore(ws: seq<Window>, since: int): seq<Window> {
    if ws != [] && ws[0].start < since then DropBefore(ws[1..], since) else ws
  }

  lemma {:induction false} TotalAt(ws: seq<Window>, b: int)
    ensures Total(ws)[b] == Recount(ws, b)
  {
    if ws != [] { TotalAt(ws[..|ws| - 1], b); }
  }

  /** Windows that recount alike have one total. */
  lemma SameTotal(ws: seq<Window>, vs: seq<Window>)
    requires forall b :: Recount(ws, b) == Recount(vs, b)
    ensures Total(ws) == Total(vs)
  {
    forall b ensures Total(ws)[b] == Total(vs)[b] {
      TotalAt(ws, b);
      TotalAt(vs, b);
    }
  }

  lemma {:induction false} RecountConcat(ws: seq<Window>, vs: seq<Window>, b: int)
    ensures Recount(ws + vs, b) == Recount(ws, b) + Recount(vs, b)
  {
    if vs == [] {
      assert ws + vs == ws;
    } else {
      RecountConcat(ws, vs[..|vs| - 1], b);
      assert (ws + vs)[..|ws + vs| - 1] == ws + vs[..|vs| - 1];
    }
  }

  lemma {:induction false} InSpanConcat(ws: seq<Window>, vs: seq<Window>, lo: int, hi: int)
    ensures InSpan(ws + vs, lo, hi) == InSpan(ws, lo, hi) + InSpan(vs, lo, hi)
  {
    if vs == [] {
      assert ws + vs == ws;
    } else {
      InSpanConcat(ws, vs[..|vs| - 1], lo, hi);
      assert (ws + vs)[..|ws + vs| - 1] == ws + vs[..|vs| - 1];
    }
  }

  /** Dropping from the front is filtering, once the windows are in order and none starts late. */
  lemma {:induction false} DropIsFilter(ws: seq<Window>, since: int, hi: int)
    requires SortedBy(ws, StartOf)
    requires forall w :: w in ws ==> w.start < hi
    ensures DropBefore(ws, since) == InSpan(ws, since, hi)
    decreases |ws|
  {
    if ws != [] {
      InSpanConcat(ws[..1], ws[1..], since, hi);
      assert ws == ws[..1] + ws[1..];
      assert InSpan(ws[..1], since, hi) == (if since <= ws[0].start < hi then [ws[0]] else []) by {
        assert ws[..1][..0] == [];
        assert InSpan(ws[..1][..0], since, hi) == [];
      }
      if ws[0].start < since {
        DropIsFilter(ws[1..], since, hi);
      } else {
        assert forall w :: w in ws ==> since <= w.start < hi by {
          forall w | w in ws ensures since <= w.start {
            var i :| 0 <= i < |ws| && ws[i] == w;
            assert StartOf(ws[0]) <= StartOf(ws[i]);
          }
        }
        InSpanAll(ws, since, hi);
      }
    }
  }

  lemma {:induction false} InSpanAll(ws: seq<Window>, lo: int, hi: int)
    requires forall w :: w in ws ==> lo <= w.start < hi
    ensures InSpan(ws, lo, hi) == ws
  {
    if ws != [] { InSpanAll(ws[..|ws| - 1], lo, hi); }
  }

  lemma {:induction false} InSpanNone(ws: seq<Window>, lo: int, hi: int)
    requires forall w :: w in ws ==> !(lo <= w.start < hi)
    ensures InSpan(ws, lo, hi) == []
  {
    if ws != [] { InSpanNone(ws[..|ws| - 1], lo, hi); }
  }

  /** Narrowing a span twice keeps the narrower one. */
  lemma {:induction false} InSpanTwice(ws: seq<Window>, lo: int, hi: int, lo': int, hi': int)
    requires lo <= lo' && hi' <= hi
    ensures InSpan(InSpan(ws, lo, hi), lo', hi') == InSpan(ws, lo', hi')
  {
    if ws != [] {
      var init, w := ws[..|ws| - 1], ws[|ws| - 1];
      InSpanTwice(init, lo, hi, lo', hi');
      InSpanConcat(InSpan(init, lo, hi), if lo <= w.start < hi then [w] else [], lo', hi');
      if lo <= w.start < hi {
        assert [w][..0] == [];
        assert InSpan([w][..0], lo', hi') == [];
      }
    }
  }

  /** Dropping from the front of a stretch leaves a shorter stretch. */
  lemma {:induction false} DropStretch(ws: seq<Window>, from: nat, upto: nat, since: int) returns (kept: nat)
    requires from <= upto <= |ws|
    ensures from <= kept <= upto && DropBefore(ws[from..upto], since) == ws[kept..upto]
    ensures forall k :: from <= k < kept ==> ws[k].start < since
    ensures kept < upto ==> ws[kept].start >= since
    decreases upto - from
  {
    kept := from;
    if from < upto && ws[from].start < since {
      assert ws[from..upto][1..] == ws[from + 1..upto];
      kept := DropStretch(ws, from + 1, upto, since);
    }
  }

  /** The windows of a span are the stretch between what is too old and what is too new. */
  lemma {:induction false} StretchIsSpan(ws: seq<Window>, from: nat, upto: nat, lo: int, hi: int)
    requires from <= upto <= |ws|
    requires forall k :: 0 <= k < from ==> ws[k].start < lo
    requires forall k :: from <= k < upto ==> lo <= ws[k].start < hi
    requires forall k :: upto <= k < |ws| ==> ws[k].start >= hi
    ensures InSpan(ws, lo, hi) == ws[from..upto]
  {
    assert ws == ws[..from] + ws[from..upto] + ws[upto..];
    InSpanConcat(ws[..from] + ws[from..upto], ws[upto..], lo, hi);
    InSpanConcat(ws[..from], ws[from..upto], lo, hi);
    InSpanNone(ws[..from], lo, hi);
    InSpanAll(ws[from..upto], lo, hi);
    InSpanNone(ws[upto..], lo, hi);
  }

  /** With nothing at or past either end, the end does not matter. */
  lemma {:induction false} InSpanEnd(ws: seq<Window>, lo: int, hi: int, hi': int)
    requires forall w :: w in ws ==> w.start < hi && w.start < hi'
    ensures InSpan(ws, lo, hi) == InSpan(ws, lo, hi')
  {
    if ws != [] { InSpanEnd(ws[..|ws| - 1], lo, hi, hi'); }
  }

  lemma {:induction false} InSpanMembers(ws: seq<Window>, lo: int, hi: int)
    ensures forall w :: w in InSpan(ws, lo, hi) <==> w in ws && lo <= w.start < hi
  {
    if ws != [] {
      InSpanMembers(ws[..|ws| - 1], lo, hi);
      assert ws == ws[..|ws| - 1] + [ws[|ws| - 1]];
    }
  }

  lemma {:induction false} InSpanSorted(ws: seq<Window>, lo: int, hi: int)
    requires SortedBy(ws, StartOf)
    ensures SortedBy(InSpan(ws, lo, hi), StartOf)
  {
    if ws != [] {
      var init, w := ws[..|ws| - 1], ws[|ws| - 1];
      InSpanSorted(init, lo, hi);
      InSpanMembers(init, lo, hi);
      var s := InSpan(init, lo, hi);
      forall i | 0 <= i < |s| ensures StartOf(s[i]) <= StartOf(w) {
        assert s[i] in init;
        var k :| 0 <= k < |init| && init[k] == s[i];
        assert StartOf(ws[k]) <= StartOf(ws[|ws| - 1]);
      }
    }
  }

  /** Splits a span of starts in two. */
  lemma {:induction false} RecountSplit(ws: seq<Window>, lo: int, mid: int, hi: int, b: int)
    requires lo <= mid <= hi
    ensures Recount(InSpan(ws, lo, hi), b) == Recount(InSpan(ws, lo, mid), b) + Recount(InSpan(ws, mid, hi), b)
  {
    if ws != [] {
      var init, w := ws[..|ws| - 1], ws[|ws| - 1];
      RecountSplit(init, lo, mid, hi, b);
      var tail := (x: int, y: int) => if x <= w.start < y then [w] else [];
      RecountConcat(InSpan(init, lo, hi), tail(lo, hi), b);
      RecountConcat(InSpan(init, lo, mid), tail(lo, mid), b);
      RecountConcat(InSpan(init, mid, hi), tail(mid, hi), b);
      RecountOne(w, b);
    }
  }

  lemma RecountOne(w: Window, b: int)
    ensures Recount([w], b) == w.samples[b]
  {
    assert [w][..0] == [];
    assert Recount([w][..0], b) == 0;
  }

  // ---------------------------------------------------------------- nearest rank

  /** The samples in the bins of `[lo, hi)`. */
  function Count(m: Samples, lo: int, hi: int): nat
    decreases hi - lo
  {
    if lo >= hi then 0 else m[lo] + Count(m, lo + 1, hi)
  }

  lemma {:induction false} CountSplit(m: Samples, lo: int, mid: int, hi: int)
    requires lo <= mid <= hi
    ensures Count(m, lo, hi) == Count(m, lo, mid) + Count(m, mid, hi)
    decreases mid - lo
  {
    if lo < mid { CountSplit(m, lo + 1, mid, hi); }
  }

  lemma {:induction false} CountEmpty(m: Samples, lo: int, hi: int)
    requires forall b :: lo <= b < hi ==> b !in m
    ensures Count(m, lo, hi) == 0
    decreases hi - lo
  {
    if lo < hi { CountEmpty(m, lo + 1, hi); }
  }

  lemma HasElement(s: multiset<int>)
    requires s != multiset{}
    ensures exists b :: b in s
  {
    assert (forall b :: s[b] == 0) ==> s == multiset{};
  }

  lemma {:induction false} MaxExists(s: multiset<int>)
    requires s != multiset{}
    ensures exists b :: b in s && forall x :: x in s ==> x <= b
    decreases |s|
  {
    HasElement(s);
    var y :| y in s;
    var rest := s[y := 0];
    assert |rest| < |s|;
    assert forall x :: x in s ==> x in rest || x == y;
    if rest == multiset{} {
      assert y in s && forall x :: x in s ==> x <= y;
    } else {
      MaxExists(rest);
      var b :| b in rest && forall x :: x in rest ==> x <= b;
      var top := Max(b, y);
      assert top in s && forall x :: x in s ==> x <= top;
    }
  }

  /** A bound above every counted bin. */
  function Top(m: Samples): (r: int)
    ensures forall b :: b in m ==> b < r
  {
    if m == multiset{} then 0
    else
      MaxExists(m);
      var b :| b in m && forall x :: x in m ==> x <= b;
      b + 1
  }

  /** The first bin from `lo` up at which `k` samples have been seen. */
  function BinAt(m: Samples, lo: int, hi: int, k: int): (r: int)
    requires 1 <= k <= Count(m, lo, hi)
    ensures lo <= r < hi && Count(m, lo, r) < k <= Count(m, lo, r + 1)
    decreases hi - lo
  {
    if k <= m[lo] then
      assert Count(m, lo, lo + 1) == m[lo] + Count(m, lo + 1, lo + 1);
      lo
    else BinAt(m, lo + 1, hi, k - m[lo])
  }

  /** The nearest rank of a percentile among `n` samples. */
  function Rank(percentile: real, n: nat): (r: nat)
    requires n > 0
    ensures 1 <= r <= n
  {
    Max(1, Min(Ceil(percentile / 100.0 * n as real), n))
  }

  /** The percentile of the samples from `floor`'s bin up, as its bin's lower edge. */
  function Level(total: Samples, floor: real, percentile: real, minSamples: nat): Option<real> {
    var lo, hi := EdgeBin(floor), Top(total);
    var n := Count(total, lo, hi);
    if n == 0 || n < minSamples then None
    else Some(BinAt(total, lo, hi, Rank(percentile, n)) as real * EDGE_BIN_BPS)
  }

  /** The nearest rank: the least count from one up that covers the percentile, or all of them. */
  lemma RankIs(percentile: real, n: nat)
    requires n > 0
    ensures var k, share := Rank(percentile, n), percentile / 100.0 * n as real;
      (k == 1 || (k - 1) as real < share) && (k == n || k as real >= share)
  {
  }

  /** A bin is a quarter of a basis point wide. */
  lemma EdgeBinIs(bps: real)
    ensures EdgeBin(bps) as real * 0.25 <= bps < (EdgeBin(bps) + 1) as real * 0.25
  {
  }

  /** A window is five minutes, on the clock. */
  lemma WindowOfIs(t: int)
    ensures WindowOf(t) % 300000 == 0 && WindowOf(t) <= t < WindowOf(t) + 300000
  {
  }

  lemma RankGrows(p: real, p': real, e: nat, n: nat)
    requires p <= p' && n > 0
    ensures Rank(p, e + n) <= e + Rank(p', n)
  {
    if p <= 100.0 {
      ScaledGrows(p / 100.0, p' / 100.0, e as real, n as real);
      CeilGrows(p / 100.0 * (e + n) as real, p' / 100.0 * n as real, e);
    } else {
      ProductGrows(1.0, p' / 100.0, n as real);
      assert Ceil(p' / 100.0 * n as real) >= n;
    }
  }

  lemma ScaledGrows(q: real, q': real, e: real, n: real)
    requires q <= q' && q <= 1.0 && e >= 0.0 && n >= 0.0
    ensures q * (e + n) <= e + q' * n
  {
    ProductGrows(q, 1.0, e);
    ProductGrows(q, q', n);
  }

  lemma CeilGrows(x: real, y: real, e: int)
    requires x <= e as real + y
    ensures Ceil(x) <= e + Ceil(y)
  {
    assert -x >= -y - e as real;
    assert (-y - e as real).Floor == (-y).Floor - e;
  }

  /**
   Gate dominance: over the same samples, a lower floor and a lower percentile never give a higher
   level, and without that level the floor itself is lower.
   */
  lemma GateDominance(total: Samples, floor: real, required: real, p: real, p': real, min: nat, min': nat)
    requires floor <= required && p <= p'
    requires Level(total, required, p', min').Some?
    ensures var trigger := (match Level(total, floor, p, min) case Some(g) => g case None => floor);
      trigger <= required || trigger <= Level(total, required, p', min').value
  {
    var lo, lo', hi := EdgeBin(floor), EdgeBin(required), Top(total);
    FloorMonotone(floor / EDGE_BIN_BPS, required / EDGE_BIN_BPS);
    assert lo <= lo';
    if Level(total, floor, p, min).Some? {
      var n' := Count(total, lo', hi);
      assert lo' < hi;
      CountSplit(total, lo, lo', hi);
      var e := Count(total, lo, lo');
      var k, k' := Rank(p, e + n'), Rank(p', n');
      RankGrows(p, p', e, n');
      var b, b' := BinAt(total, lo, hi, k), BinAt(total, lo', hi, k');
      if b > b' {
        // Everything up to b' is at least e + k' samples, so the lower rank is reached there.
        CountSplit(total, lo, lo', b' + 1);
        CountSplit(total, lo, b' + 1, b);
        assert false;
      }
      assert b as real * EDGE_BIN_BPS <= b' as real * EDGE_BIN_BPS;
    }
  }

  lemma FloorMonotone(x: real, y: real)
    requires x <= y
    ensures x.Floor <= y.Floor
  {
  }

  // ---------------------------------------------------------------- reference definition of the level

  ghost predicate Ascending(s: seq<int>) {
    forall i, j :: 0 <= i < j < |s| ==> s[i] <= s[j]
  }

  lemma {:induction false} CountIsPrefix(m: Samples, s: seq<int>, lo: int, x: int)
    requires lo <= x && Ascending(s)
    requires forall b :: multiset(s)[b] == if b >= lo then m[b] else 0
    ensures Count(m, lo, x) <= |s|
    ensures forall i :: 0 <= i < |s| ==> (s[i] < x <==> i < Count(m, lo, x))
    decreases x - lo
  {
    if lo == x {
      forall i | 0 <= i < |s| ensures s[i] >= x { assert s[i] in multiset(s); }
    } else {
      // The bins below x - 1 fill a prefix; the samples in bin x - 1 come right after it.
      CountIsPrefix(m, s, lo, x - 1);
      CountSplit(m, lo, x - 1, x);
      assert Count(m, x - 1, x) == m[x - 1] + Count(m, x, x);
      var c := Count(m, lo, x - 1);
      RunLength(s, c, x - 1);
    }
  }

  /** In ascending order the copies of `v` are one run. */
  lemma {:induction false} RunLength(s: seq<int>, c: nat, v: int)
    requires Ascending(s) && c <= |s|
    requires forall i :: 0 <= i < |s| ==> (s[i] < v <==> i < c)
    ensures c + multiset(s)[v] <= |s|
    ensures forall i :: 0 <= i < |s| ==> (s[i] < v + 1 <==> i < c + multiset(s)[v])
    decreases |s|
  {
    if |s| == c {
      assert forall x :: x in multiset(s) ==> x in s;
      assert v !in multiset(s);
    } else {
      var init, z := s[..|s| - 1], s[|s| - 1];
      RunLength(init, c, v);
      var n, n' := multiset(init)[v], multiset(s)[v];
      assert n' == n + if z == v then 1 else 0 by { assert s == init + [z]; }
      assert z >= v;
      RunEnds(s, c, n, v);
    }
  }

  /** One element more: it lengthens the run, or lies beyond it. */
  lemma RunEnds(s: seq<int>, c: nat, n: nat, v: int)
    requires Ascending(s) && c < |s| && s[|s| - 1] >= v && c + n <= |s| - 1
    requires forall i :: 0 <= i < |s| - 1 ==> (s[i] < v + 1 <==> i < c + n)
    ensures var n' := n + if s[|s| - 1] == v then 1 else 0; forall i :: 0 <= i < |s| ==> (s[i] < v + 1 <==> i < c + n')
  {
    var last := |s| - 1;
    if s[last] == v && last > 0 { assert s[last - 1] <= s[last]; }
  }

  /** The samples counted from a floor's bin up are those listed. */
  lemma CountIsListed(ws: seq<Window>, s: seq<int>, floor: real)
    requires Ascending(s)
    requires forall b :: multiset(s)[b] == if b >= EdgeBin(floor) then Recount(ws, b) else 0
    ensures Count(Total(ws), EdgeBin(floor), Top(Total(ws))) == |s|
  {
    hide Total, Recount, EdgeBin, Ascending;
    var m, lo := Total(ws), EdgeBin(floor);
    var hi := Max(Top(m), lo);
    forall b ensures multiset(s)[b] == if b >= lo then m[b] else 0 { TotalAt(ws, b); }
    CountIsPrefix(m, s, lo, hi);
    assert Count(m, lo, hi) == |s| by {
      if s != [] {
        var z := s[|s| - 1];
        assert z in multiset(s) && z in m && z < hi;
      }
    }
  }

  /**
   The level is the nearest-rank element: list every sample of the windows from the floor's bin up in
   ascending order, and it is the one at the rank.
   */
  lemma LevelIsNearestRank(ws: seq<Window>, s: seq<int>, floor: real, percentile: real, minSamples: nat)
    requires Ascending(s)
    requires forall b :: multiset(s)[b] == if b >= EdgeBin(floor) then Recount(ws, b) else 0
    ensures Level(Total(ws), floor, percentile, minSamples)
         == if |s| == 0 || |s| < minSamples then None
            else Some(s[Rank(percentile, |s|) - 1] as real * EDGE_BIN_BPS)
  {
    hide Total, Recount, EdgeBin, Rank, Ascending;
    var m, lo := Total(ws), EdgeBin(floor);
    var hi := Max(Top(m), lo);
    forall b ensures multiset(s)[b] == if b >= lo then m[b] else 0 { TotalAt(ws, b); }
    CountIsPrefix(m, s, lo, hi);
    CountIsListed(ws, s, floor);
    if |s| > 0 {
      var k := Rank(percentile, |s|);
      var r := BinAt(m, lo, Top(m), k);
      CountIsPrefix(m, s, lo, r);
      CountIsPrefix(m, s, lo, r + 1);
      assert s[k - 1] == r;
    }
  }

  // ---------------------------------------------------------------- the gate object

  /** Forgetting the oldest window is subtracting its samples. */
  lemma TotalTail(ws: seq<Window>)
    requires ws != []
    ensures Total(ws) == Total(ws[1..]) + ws[0].samples
  {
    forall b ensures Total(ws)[b] == Total(ws[1..])[b] + ws[0].samples[b] {
      assert ws == ws[..1] + ws[1..] && ws[..1] == [ws[0]];
      RecountConcat(ws[..1], ws[1..], b);
      RecountOne(ws[0], b);
      TotalAt(ws, b);
      TotalAt(ws[1..], b);
    }
  }

  /** The bot's entry gate over the samples of whole windows. */
  class Gate {
    var windows: seq<Window>
    var total: Samples

    /** The index is exact: every bin counts what the retained windows hold. */
    ghost predicate Valid()
      reads this
    {
      total == Total(windows)
    }

    constructor ()
      ensures Valid() && windows == []
    {
      windows, total := [], multiset{};
    }

    /** Adds a window's samples; windows come in time order. */
    method Push(start: int, samples: Samples)
      requires Valid()
      modifies this
      ensures Valid() && windows == old(windows) + [Window(start, samples)]
    {
      var rest := samples;
      while rest != multiset{}
        invariant windows == old(windows)
        invariant total + rest == old(total) + samples
        decreases |rest|
      {
        HasElement(rest);
        var b :| b in rest;
        var n := rest[b];
        total, rest := total[b := total[b] + n], rest[b := 0];
      }
      windows := windows + [Window(start, samples)];
      assert windows[..|windows| - 1] == old(windows);
    }

    /** Forgets the windows that started before `since`. */
    method Expire(since: int)
      requires Valid()
      modifies this
      ensures Valid() && windows == DropBefore(old(windows), since)
    {
      while windows != [] && windows[0].start < since
        invariant Valid()
        invariant DropBefore(windows, since) == DropBefore(old(windows), since)
        decreases |windows|
      {
        label Pop:
        var samples := windows[0].samples;
        TotalTail(windows);
        windows := windows[1..];
        var rest := samples;
        while rest != multiset{}
          invariant windows == old@Pop(windows)[1..]
          invariant total == Total(windows) + rest
          decreases |rest|
        {
          HasElement(rest);
          var b :| b in rest;
          var n := rest[b];
          total, rest := total[b := total[b] - n], rest[b := 0];
        }
      }
    }

    method LevelNow(floor: real, percentile: real, minSamples: nat) returns (r: Option<real>)
      requires Valid()
      ensures r == Level(Total(windows), floor, percentile, minSamples)
    {
      r := Level(total, floor, percentile, minSamples);
    }
  }
}

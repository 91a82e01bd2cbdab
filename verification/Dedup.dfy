/**
 The trade filter of the public feed (SCREENER/src/hyperliquid.rs): trades from before the first book are
 history, and a set of recent trade ids drops what is sent twice.
 */
module Dedup {
  import opened Common

  const KEEP_MS := 60000
  const QUIET_MS := 30000

  datatype MarketState = MarketState(
    firstBook: int, lastBook: int, received: int, seen: set<(int, nat)>, newestTrade: int)

  const UNSEEN := MarketState(0, 0, 0, {}, 0)

  /** A print of a market; `pair` is none for a coin not followed, `valid` if its numbers and side parse. */
  datatype Print = Print(pair: Option<nat>, time: int, tid: nat, valid: bool)

  datatype Event = Trade(pair: nat, time: int, tid: nat) | BookEvent(pair: nat, known: bool)

  datatype Feed = Feed(markets: map<nat, MarketState>, historical: nat, duplicates: nat)

  const NEW := Feed(map[], 0, 0)

  /** What a frame gave so far, and whether a bad print ended it. */
  datatype Scan = Scan(feed: Feed, events: seq<Event>, failed: bool)

  predicate Historical(s: MarketState, p: Print) {
    s.firstBook == 0 || p.time <= s.firstBook || p.time < s.newestTrade - KEEP_MS
  }

  function Recent(seen: set<(int, nat)>, from: int): set<(int, nat)> { set x | x in seen && x.0 >= from }

  /** A trade that passed the filters joins its market's ids; a bounded set forgets the old ones. */
  function Joined(s: MarketState, p: Print, bounded: bool): MarketState {
    var seen := s.seen + {(p.time, p.tid)};
    if p.time > s.newestTrade
    then s.(newestTrade := p.time, seen := if bounded then Recent(seen, p.time - KEEP_MS) else seen)
    else s.(seen := seen)
  }

  function Scanned(r: Scan, p: Print, bounded: bool): Scan {
    if r.failed || p.pair.None? then r
    else if p.pair.value !in r.feed.markets then r.(feed := r.feed.(historical := r.feed.historical + 1))
    else
      var pair := p.pair.value;
      var s := r.feed.markets[pair];
      if Historical(s, p) then r.(feed := r.feed.(historical := r.feed.historical + 1))
      else if !p.valid then r.(failed := true)
      else if (p.time, p.tid) in s.seen then r.(feed := r.feed.(duplicates := r.feed.duplicates + 1))
      else r.(feed := r.feed.(markets := r.feed.markets[pair := Joined(s, p, bounded)]),
              events := r.events + [Trade(pair, p.time, p.tid)])
  }

  function ScanAll(feed: Feed, prints: seq<Print>, bounded: bool): Scan {
    if prints == [] then Scan(feed, [], false)
    else Scanned(ScanAll(feed, prints[..|prints| - 1], bounded), prints[|prints| - 1], bounded)
  }

  /** A book frame: the first known one sets the history boundary, an unknown one clears it. */
  function Booked(feed: Feed, pair: nat, time: int, known: bool, now: int): (Feed, seq<Event>) {
    var s := if pair in feed.markets then feed.markets[pair] else UNSEEN;
    if time < s.lastBook then (feed.(markets := feed.markets[pair := s]), [])
    else
      var first := if !known then 0 else if s.firstBook == 0 then time else s.firstBook;
      (feed.(markets := feed.markets[pair := s.(firstBook := first, lastBook := time, received := now)]),
       [BookEvent(pair, known)])
  }

  predicate Quiet(s: MarketState, now: int) { s.received != 0 && now - s.received > QUIET_MS }

  /** Markets whose book has not been refreshed lose it. */
  function Expired(feed: Feed, now: int): Feed {
    feed.(markets := map k | k in feed.markets ::
                       if Quiet(feed.markets[k], now) then feed.markets[k].(received := 0, firstBook := 0)
                       else feed.markets[k])
  }

  datatype Op =
    | Trades(prints: seq<Print>) | BookFrame(pair: nat, time: int, known: bool, now: int) | Expire(now: int) | Reset

  /** The feed and the trades it has returned since the last reset. A frame that fails returns none. */
  datatype Session = Session(feed: Feed, out: seq<Event>)

  function Step(s: Session, op: Op, bounded: bool): Session {
    match op
    case Trades(prints) =>
      var r := ScanAll(s.feed, prints, bounded);
      Session(r.feed, if r.failed then s.out else s.out + r.events)
    case BookFrame(pair, time, known, now) => s.(feed := Booked(s.feed, pair, time, known, now).0)
    case Expire(now) => s.(feed := Expired(s.feed, now))
    case Reset => Session(s.feed.(markets := map[]), [])
  }

  function Run(ops: seq<Op>, bounded: bool): Session {
    if ops == [] then Session(NEW, []) else Step(Run(ops[..|ops| - 1], bounded), ops[|ops| - 1], bounded)
  }

  // ---------------------------------------------------------------- bounded as good as lifetime

  /** The bounded state is the lifetime one with only the recent ids. */
  ghost predicate Prunes(b: MarketState, l: MarketState) {
    b == l.(seen := b.seen) && b.seen == Recent(l.seen, l.newestTrade - KEEP_MS)
  }

  ghost predicate PrunesAll(b: map<nat, MarketState>, l: map<nat, MarketState>) {
    b.Keys == l.Keys && forall k :: k in b ==> Prunes(b[k], l[k])
  }

  ghost predicate Alike(b: Feed, l: Feed) {
    b.historical == l.historical && b.duplicates == l.duplicates && PrunesAll(b.markets, l.markets)
  }

  lemma JoinedAlike(b: MarketState, l: MarketState, p: Print)
    requires Prunes(b, l) && !Historical(l, p)
    ensures (p.time, p.tid) in b.seen <==> (p.time, p.tid) in l.seen
    ensures Prunes(Joined(b, p, true), Joined(l, p, false))
  {
  }

  lemma ScannedAlike(b: Scan, l: Scan, p: Print)
    requires Alike(b.feed, l.feed) && b.events == l.events && b.failed == l.failed
    ensures var b', l' := Scanned(b, p, true), Scanned(l, p, false);
      Alike(b'.feed, l'.feed) && b'.events == l'.events && b'.failed == l'.failed
  {
    hide Joined;
    if !b.failed && p.pair.Some? && p.pair.value in b.feed.markets {
      var bs, ls := b.feed.markets[p.pair.value], l.feed.markets[p.pair.value];
      assert Prunes(bs, ls);
      if !Historical(ls, p) { JoinedAlike(bs, ls, p); }
    }
  }

  lemma {:induction false} ScanAlike(b: Feed, l: Feed, prints: seq<Print>)
    requires Alike(b, l)
    ensures var b', l' := ScanAll(b, prints, true), ScanAll(l, prints, false);
      Alike(b'.feed, l'.feed) && b'.events == l'.events && b'.failed == l'.failed
  {
    hide Scanned, Alike;
    if prints != [] {
      var init := prints[..|prints| - 1];
      ScanAlike(b, l, init);
      ScannedAlike(ScanAll(b, init, true), ScanAll(l, init, false), prints[|prints| - 1]);
    }
  }

  lemma BookedAlike(b: Feed, l: Feed, pair: nat, time: int, known: bool, now: int)
    requires Alike(b, l)
    ensures Alike(Booked(b, pair, time, known, now).0, Booked(l, pair, time, known, now).0)
  {
    hide Recent;
    assert pair in b.markets ==> Prunes(b.markets[pair], l.markets[pair]);
    assert Prunes(UNSEEN, UNSEEN) by { NothingSeen(); }
  }

  lemma NothingSeen()
    ensures Prunes(UNSEEN, UNSEEN)
  {
  }

  lemma ExpiredAlike(b: Feed, l: Feed, now: int)
    requires Alike(b, l)
    ensures Alike(Expired(b, now), Expired(l, now))
  {
    hide Recent;
    forall k | k in b.markets ensures Prunes(Expired(b, now).markets[k], Expired(l, now).markets[k]) {
      assert Prunes(b.markets[k], l.markets[k]);
    }
  }

  lemma StepAlike(b: Session, l: Session, op: Op)
    requires Alike(b.feed, l.feed) && b.out == l.out
    ensures Alike(Step(b, op, true).feed, Step(l, op, false).feed) && Step(b, op, true).out == Step(l, op, false).out
  {
    hide ScanAll, Booked, Expired, Prunes;
    match op
    case Trades(prints) => ScanAlike(b.feed, l.feed, prints);
    case BookFrame(pair, time, known, now) => BookedAlike(b.feed, l.feed, pair, time, known, now);
    case Expire(now) => ExpiredAlike(b.feed, l.feed, now);
    case Reset =>
  }

  /** Every run: the pruned set accepts exactly the trades a set of every id since the reset would. */
  lemma {:induction false} BoundedAsGood(ops: seq<Op>)
    ensures Alike(Run(ops, true).feed, Run(ops, false).feed) && Run(ops, true).out == Run(ops, false).out
  {
    hide Step, Alike;
    if ops == [] {
      assert Alike(NEW, NEW) by { SelfAlike(); }
    } else {
      BoundedAsGood(ops[..|ops| - 1]);
      StepAlike(Run(ops[..|ops| - 1], true), Run(ops[..|ops| - 1], false), ops[|ops| - 1]);
    }
  }

  lemma SelfAlike()
    ensures Alike(NEW, NEW)
  {
  }

  /** Everything kept is within a minute of the newest trade. */
  lemma KeptIsRecent(ops: seq<Op>, pair: nat, x: (int, nat))
    requires var m := Run(ops, true).feed.markets; pair in m && x in m[pair].seen
    ensures Run(ops, true).feed.markets[pair].newestTrade - KEEP_MS <= x.0
  {
    hide Run;
    BoundedAsGood(ops);
    assert Prunes(Run(ops, true).feed.markets[pair], Run(ops, false).feed.markets[pair]);
  }

  // ---------------------------------------------------------------- nothing twice

  ghost predicate Known(e: Event, feed: Feed) {
    e.Trade? && e.pair in feed.markets && (e.time, e.tid) in feed.markets[e.pair].seen
  }

  ghost predicate Distinct(out: seq<Event>) { forall i, j :: 0 <= i < j < |out| ==> out[i] != out[j] }

  ghost predicate AllKnown(out: seq<Event>, feed: Feed) { forall i :: 0 <= i < |out| ==> Known(out[i], feed) }

  /** With lifetime ids, one print more: what was returned stays known, and is not returned again. */
  lemma ScannedOnce(before: seq<Event>, r: Scan, p: Print)
    requires Distinct(before + r.events) && AllKnown(before + r.events, r.feed)
    ensures var r' := Scanned(r, p, false); Distinct(before + r'.events) && AllKnown(before + r'.events, r'.feed)
  {
    var r' := Scanned(r, p, false);
    var was, out := before + r.events, before + r'.events;
    forall i | 0 <= i < |was| ensures Known(was[i], r'.feed) {
      assert Known(was[i], r.feed);
    }
    if r'.events != r.events { assert out == was + [Trade(p.pair.value, p.time, p.tid)]; }
  }

  lemma {:induction false} ScanOnce(before: seq<Event>, feed: Feed, prints: seq<Print>)
    requires Distinct(before) && AllKnown(before, feed)
    ensures var r := ScanAll(feed, prints, false); Distinct(before + r.events) && AllKnown(before + r.events, r.feed)
    ensures var r := ScanAll(feed, prints, false); AllKnown(before, r.feed)
  {
    hide Scanned;
    if prints == [] {
      assert before + [] == before;
    } else {
      ScanOnce(before, feed, prints[..|prints| - 1]);
      ScannedOnce(before, ScanAll(feed, prints[..|prints| - 1], false), prints[|prints| - 1]);
      var r := ScanAll(feed, prints, false);
      forall i | 0 <= i < |before| ensures Known(before[i], r.feed) { assert before[i] == (before + r.events)[i]; }
    }
  }

  lemma {:induction false} LifetimeOnce(ops: seq<Op>)
    ensures var s := Run(ops, false); Distinct(s.out) && AllKnown(s.out, s.feed)
  {
    hide ScanAll;
    if ops != [] {
      LifetimeOnce(ops[..|ops| - 1]);
      var s, op := Run(ops[..|ops| - 1], false), ops[|ops| - 1];
      if op.Trades? { ScanOnce(s.out, s.feed, op.prints); }
    }
  }

  /** Every run: between resets no trade is returned twice. */
  lemma NothingTwice(ops: seq<Op>)
    ensures Distinct(Run(ops, true).out)
  {
    hide Run;
    BoundedAsGood(ops);
    LifetimeOnce(ops);
  }

  // ---------------------------------------------------------------- every accepted print returned

  /** What a frame comes to after these operations. */
  function FrameAfter(ops: seq<Op>, prints: seq<Print>): Scan { ScanAll(Run(ops, true).feed, prints, true) }

  /** Every trade accepted since the last reset, those of frames that failed later on too. */
  function Accepted(ops: seq<Op>): seq<Event> {
    if ops == [] then []
    else
      var init := ops[..|ops| - 1];
      match ops[|ops| - 1]
      case Trades(prints) => Accepted(init) + FrameAfter(init, prints).events
      case Reset => []
      case _ => Accepted(init)
  }

  /** A frame that fails after it accepted a print. */
  predicate Drops(ops: seq<Op>, op: Op) {
    op.Trades? && FrameAfter(ops, op.prints).failed && FrameAfter(ops, op.prints).events != []
  }

  /** Has there been one since the last reset? */
  predicate Dropped(ops: seq<Op>) {
    ops != [] && ops[|ops| - 1] != Reset && (Dropped(ops[..|ops| - 1]) || Drops(ops[..|ops| - 1], ops[|ops| - 1]))
  }

  /** No print is accepted twice between resets, returned or not: the lifetime ids know them all. */
  lemma {:induction false} AcceptedOnce(ops: seq<Op>)
    ensures Distinct(Accepted(ops)) && AllKnown(Accepted(ops), Run(ops, false).feed)
  {
    hide ScanAll, Distinct;
    if ops == [] {
      assert Distinct([]) by { NoneTwice(); }
    } else {
      var init, op := ops[..|ops| - 1], ops[|ops| - 1];
      AcceptedOnce(init);
      NoneTwice();
      if op.Trades? {
        BoundedAsGood(init);
        ScanAlike(Run(init, true).feed, Run(init, false).feed, op.prints);
        ScanOnce(Accepted(init), Run(init, false).feed, op.prints);
      } else if !op.Reset? {
        StaysKnown(Accepted(init), Run(init, false), op);
      }
    }
  }

  lemma NoneTwice()
    ensures Distinct([])
  {
  }

  lemma StaysKnown(out: seq<Event>, s: Session, op: Op)
    requires AllKnown(out, s.feed) && (op.BookFrame? || op.Expire?)
    ensures AllKnown(out, Step(s, op, false).feed)
  {
    forall i | 0 <= i < |out| ensures Known(out[i], Step(s, op, false).feed) { assert Known(out[i], s.feed); }
  }

  /** What was returned was accepted. */
  lemma {:induction false} ReturnedAccepted(ops: seq<Op>)
    ensures forall e :: e in Run(ops, true).out ==> e in Accepted(ops)
    ensures !Dropped(ops) ==> Run(ops, true).out == Accepted(ops)
  {
    hide ScanAll, Booked, Expired;
    if ops != [] { ReturnedAccepted(ops[..|ops| - 1]); }
  }

  /** A print that a failed frame had accepted is not returned until the next reset, however often it is sent. */
  lemma {:induction false} DroppedForGood(ops: seq<Op>) returns (e: Event)
    requires Dropped(ops)
    ensures e in Accepted(ops) && e !in Run(ops, true).out
  {
    hide FrameAfter, Booked, Expired, Distinct, AllKnown;
    var init, op := ops[..|ops| - 1], ops[|ops| - 1];
    ReturnedAccepted(init);
    AcceptedOnce(ops);
    if Drops(init, op) {
      var events := FrameAfter(init, op.prints).events;
      e := events[0];
      assert Accepted(ops)[|Accepted(init)|] == e;
      NotBoth(Accepted(init), events, e);
      assert Run(ops, true).out == Run(init, true).out by { FrameReturns(init, op); }
    } else {
      e := DroppedForGood(init);
      if op.Trades? {
        NotBoth(Accepted(init), FrameAfter(init, op.prints).events, e);
        FrameReturns(init, op);
      }
    }
  }

  lemma NotBoth(a: seq<Event>, b: seq<Event>, e: Event)
    requires Distinct(a + b)
    ensures e !in a || e !in b
  {
    assert forall i :: 0 <= i < |a| ==> (a + b)[i] == a[i];
    assert forall j :: 0 <= j < |b| ==> (a + b)[|a| + j] == b[j];
  }

  lemma FrameReturns(ops: seq<Op>, op: Op)
    requires op.Trades?
    ensures var r := FrameAfter(ops, op.prints);
      Run(ops + [op], true).out == Run(ops, true).out + if r.failed then [] else r.events
  {
    assert (ops + [op])[..|ops|] == ops;
    assert Run(ops, true).out + [] == Run(ops, true).out;
  }

  /** Every run: every print accepted since the reset has been returned, exactly when no frame dropped one. */
  lemma AllReturned(ops: seq<Op>)
    ensures (forall e :: e in Accepted(ops) ==> e in Run(ops, true).out) <==> !Dropped(ops)
    ensures !Dropped(ops) ==> Run(ops, true).out == Accepted(ops)
  {
    hide Run, Accepted, Dropped;
    ReturnedAccepted(ops);
    if Dropped(ops) { var e := DroppedForGood(ops); }
  }

  /** A frame whose second print is unreadable, then its first print again: a duplicate, and never returned. */
  lemma RetryIsDuplicate() returns (ops: seq<Op>)
    ensures Accepted(ops) == [Trade(0, 101, 1)] && Run(ops, true).out == []
    ensures Run(ops, true).feed.duplicates == 1 && !ResetOnFailure(ops)
  {
    hide Recent;
    var good, bad := Print(Some(0), 101, 1, true), Print(Some(0), 101, 2, false);
    var book, both, again := BookFrame(0, 100, true, 0), Trades([good, bad]), Trades([good]);
    ops := [book, both, again];
    assert ops[..1] == [book] && [] + [book] == [book];
    assert [book] + [both] == [book, both] && [book, both] + [again] == ops;
    OneMore([], book);
    OneMore([book], both);
    OneMore([book, both], again);
    var s := MarketState(100, 100, 0, {}, 0);
    var feed := Run([book], true).feed;
    assert feed == Feed(map[0 := s], 0, 0);
    TwoScanned(feed, good, bad);
    var kept := Scan(feed.(markets := feed.markets[0 := Joined(s, good, true)]), [Trade(0, 101, 1)], true);
    assert ScanAll(feed, [good, bad], true) == kept;
    KeepsNew(s, good);
    OneScanned(kept.feed, good);
    assert FrameAfter(ops[..1], ops[1].prints).failed && ops[2] != Reset;
  }

  lemma OneMore(ops: seq<Op>, op: Op)
    ensures Run(ops + [op], true) == Step(Run(ops, true), op, true)
    ensures Accepted(ops + [op])
      == if op.Trades? then Accepted(ops) + FrameAfter(ops, op.prints).events
         else if op.Reset? then [] else Accepted(ops)
  {
    assert (ops + [op])[..|ops|] == ops;
  }

  lemma KeepsNew(s: MarketState, p: Print)
    ensures (p.time, p.tid) in Joined(s, p, true).seen
  {
  }

  lemma OneScanned(feed: Feed, p: Print)
    ensures ScanAll(feed, [p], true) == Scanned(Scan(feed, [], false), p, true)
  {
    assert [p][..0] == [];
  }

  lemma TwoScanned(feed: Feed, p: Print, q: Print)
    ensures ScanAll(feed, [p, q], true) == Scanned(Scanned(Scan(feed, [], false), p, true), q, true)
  {
    OneScanned(feed, p);
    assert [p, q][..1] == [p];
  }

  /** As the collector drives it: a frame that failed is followed by a reset. */
  ghost predicate ResetOnFailure(ops: seq<Op>) {
    forall i :: 0 <= i < |ops| - 1 && ops[i].Trades? && FrameAfter(ops[..i], ops[i].prints).failed ==>
      ops[i + 1] == Reset
  }

  /** So the collector misses nothing that was accepted, but for a frame that has just failed. */
  lemma {:induction false} CollectorMissesNothing(ops: seq<Op>)
    requires ResetOnFailure(ops)
    requires ops != [] && ops[|ops| - 1].Trades? ==> !FrameAfter(ops[..|ops| - 1], ops[|ops| - 1].prints).failed
    ensures !Dropped(ops) && Run(ops, true).out == Accepted(ops)
  {
    hide FrameAfter, Run, Accepted;
    if ops != [] && ops[|ops| - 1] != Reset {
      var init := ops[..|ops| - 1];
      assert forall i :: 0 <= i < |init| ==> init[i] == ops[i] && init[..i] == ops[..i];
      if init != [] { assert init[..|init| - 1] == ops[..|init| - 1] && init[|init| - 1] == ops[|init| - 1]; }
      CollectorMissesNothing(init);
    }
    ReturnedAccepted(ops);
  }

  // ---------------------------------------------------------------- what is history

  /** The exchange times of book frames and the wall clock are positive, as the parser requires. */
  ghost predicate Stamped(ops: seq<Op>) {
    forall i :: 0 <= i < |ops| && ops[i].BookFrame? ==> ops[i].time > 0 && ops[i].now > 0
  }

  /** What the book frames since the last reset say of a market. */
  datatype Books = Books(first: Option<int>, last: Option<int>, received: Option<int>)

  /**
   The first known book since there was none, the last book frame, and when that was received: a frame older
   than the last is ignored, an unknown book clears the first, and so do thirty seconds without a frame.
   */
  function BooksOf(ops: seq<Op>, pair: nat): Books {
    if ops == [] then Books(None, None, None)
    else
      var b, op := BooksOf(ops[..|ops| - 1], pair), ops[|ops| - 1];
      match op
      case Trades(_) => b
      case Reset => Books(None, None, None)
      case BookFrame(of, time, known, now) =>
        if of != pair || (b.last.Some? && time < b.last.value) then b
        else Books(if !known then None else if b.first.Some? then b.first else Some(time), Some(time), Some(now))
      case Expire(now) =>
        if b.received.Some? && now - b.received.value > 30000 then b.(first := None, received := None) else b
  }

  function OrNone(x: int): Option<int> { if x == 0 then None else Some(x) }

  ghost predicate BooksKept(m: map<nat, MarketState>, pair: nat, b: Books) {
    && (pair in m <==> b.last.Some?) && (b.last.Some? ==> b.last.value > 0)
    && (b.first.Some? ==> b.first.value > 0) && (b.received.Some? ==> b.received.value > 0)
    && (pair in m ==> b == Books(OrNone(m[pair].firstBook), OrNone(m[pair].lastBook), OrNone(m[pair].received)))
    && (pair !in m ==> b == Books(None, None, None))
  }

  lemma {:induction false} BooksAre(ops: seq<Op>, pair: nat)
    requires Stamped(ops)
    ensures BooksKept(Run(ops, true).feed.markets, pair, BooksOf(ops, pair))
  {
    hide Recent, Joined, Scanned, Booked, Expired;
    if ops != [] {
      var init, op := ops[..|ops| - 1], ops[|ops| - 1];
      BooksAre(init, pair);
      var s, b := Run(init, true), BooksOf(init, pair);
      match op
      case Trades(prints) => ScanKeepsBooks(s.feed, prints, pair);
      case BookFrame(of, time, known, now) => BookedBooks(s.feed, of, time, known, now, pair, b);
      case Expire(now) => ExpiredBooks(s.feed, now, pair, b);
      case Reset =>
    }
  }

  lemma BookedBooks(feed: Feed, of: nat, time: int, known: bool, now: int, pair: nat, b: Books)
    requires BooksKept(feed.markets, pair, b) && time > 0 && now > 0
    ensures BooksKept(Booked(feed, of, time, known, now).0.markets, pair,
                      if of != pair || (b.last.Some? && time < b.last.value) then b
                      else Books(if !known then None else if b.first.Some? then b.first else Some(time),
                                 Some(time), Some(now)))
  {
  }

  lemma ExpiredBooks(feed: Feed, now: int, pair: nat, b: Books)
    requires BooksKept(feed.markets, pair, b)
    ensures BooksKept(Expired(feed, now).markets, pair,
                      if b.received.Some? && now - b.received.value > 30000
                      then b.(first := None, received := None) else b)
  {
  }

  /** Trades leave what the books say as it was. */
  lemma {:induction false} ScanKeepsBooks(feed: Feed, prints: seq<Print>, pair: nat)
    ensures var r := ScanAll(feed, prints, true).feed.markets;
      && r.Keys == feed.markets.Keys
      && (pair in r ==>
            var s, q := feed.markets[pair], r[pair];
            s.firstBook == q.firstBook && s.lastBook == q.lastBook && s.received == q.received)
  {
    hide Recent;
    if prints != [] { ScanKeepsBooks(feed, prints[..|prints| - 1], pair); }
  }

  /** The latest time of a market's trades in a list; zero if there is none later. */
  function Newest(events: seq<Event>, pair: nat): int {
    if events == [] then 0
    else
      var e, before := events[|events| - 1], Newest(events[..|events| - 1], pair);
      if e.Trade? && e.pair == pair && e.time > before then e.time else before
  }

  lemma {:induction false} NewestJoin(a: seq<Event>, b: seq<Event>, pair: nat)
    ensures Newest(a + b, pair) == Max(Newest(a, pair), Newest(b, pair)) && Newest(b, pair) >= 0
  {
    if b == [] {
      assert a + b == a;
      NewestPositive(a, pair);
    } else {
      NewestJoin(a, b[..|b| - 1], pair);
      assert (a + b)[..|a + b| - 1] == a + b[..|b| - 1];
    }
  }

  lemma {:induction false} NewestPositive(a: seq<Event>, pair: nat)
    ensures Newest(a, pair) >= 0
  {
    if a != [] { NewestPositive(a[..|a| - 1], pair); }
  }

  lemma {:induction false} ScanNewest(feed: Feed, prints: seq<Print>, pair: nat)
    requires pair in feed.markets && feed.markets[pair].newestTrade >= 0
    ensures var r := ScanAll(feed, prints, true);
      pair in r.feed.markets && r.feed.markets[pair].newestTrade
        == Max(feed.markets[pair].newestTrade, Newest(r.events, pair))
  {
    hide Scanned, Newest;
    if prints == [] {
      NoneNewest(pair);
    } else {
      ScanNewest(feed, prints[..|prints| - 1], pair);
      ScannedNewest(ScanAll(feed, prints[..|prints| - 1], true), prints[|prints| - 1], pair,
                    feed.markets[pair].newestTrade);
    }
  }

  lemma NoneNewest(pair: nat)
    ensures Newest([], pair) == 0
  {
  }

  lemma ScannedNewest(r: Scan, p: Print, pair: nat, was: int)
    requires pair in r.feed.markets && r.feed.markets[pair].newestTrade == Max(was, Newest(r.events, pair))
    ensures var r' := Scanned(r, p, true);
      pair in r'.feed.markets && r'.feed.markets[pair].newestTrade == Max(was, Newest(r'.events, pair))
  {
    hide Recent;
    if p.pair.Some? {
      assert (r.events + [Trade(p.pair.value, p.time, p.tid)])[..|r.events|] == r.events;
    }
  }

  /** No trade of a market is accepted before its first book frame. */
  lemma {:induction false} ScanOnlyKnown(feed: Feed, prints: seq<Print>, pair: nat)
    requires pair !in feed.markets
    ensures Newest(ScanAll(feed, prints, true).events, pair) == 0 && pair !in ScanAll(feed, prints, true).feed.markets
  {
    hide Recent;
    if prints != [] {
      var init := ScanAll(feed, prints[..|prints| - 1], true);
      ScanOnlyKnown(feed, prints[..|prints| - 1], pair);
      var p := prints[|prints| - 1];
      if p.pair.Some? {
        assert (init.events + [Trade(p.pair.value, p.time, p.tid)])[..|init.events|] == init.events;
      }
    }
  }

  /** The newest trade a market keeps is the newest accepted since the reset. */
  lemma {:induction false} NewestIs(ops: seq<Op>, pair: nat)
    ensures var m := Run(ops, true).feed.markets;
      Newest(Accepted(ops), pair) == if pair in m then m[pair].newestTrade else 0
  {
    hide ScanAll, Recent;
    if ops != [] {
      var init, op := ops[..|ops| - 1], ops[|ops| - 1];
      NewestIs(init, pair);
      NewestPositive(Accepted(init), pair);
      if op.Trades? {
        var feed := Run(init, true).feed;
        NewestJoin(Accepted(init), FrameAfter(init, op.prints).events, pair);
        if pair in feed.markets { ScanNewest(feed, op.prints, pair); } else { ScanOnlyKnown(feed, op.prints, pair); }
      }
    }
  }

  /** A print no trade should come of: before a known book's time, or older than a minute before the newest trade. */
  ghost predicate IsHistory(ops: seq<Op>, pair: nat, time: int) {
    var b := BooksOf(ops, pair);
    b.first.None? || time <= b.first.value || time < Newest(Accepted(ops), pair) - 60000
  }

  /**
   What one print comes to after any run: nothing for a coin not followed; counted as history; a failure if its
   numbers do not parse; counted as a duplicate if it was accepted before; or accepted.
   */
  lemma PrintIs(ops: seq<Op>, p: Print)
    requires Stamped(ops)
    ensures var feed, r := Run(ops, true).feed, FrameAfter(ops, [p]);
      if p.pair.None? then r == Scan(feed, [], false)
      else if IsHistory(ops, p.pair.value, p.time) then r == Scan(feed.(historical := feed.historical + 1), [], false)
      else if !p.valid then r == Scan(feed, [], true)
      else if Trade(p.pair.value, p.time, p.tid) in Accepted(ops) then
        r == Scan(feed.(duplicates := feed.duplicates + 1), [], false)
      else
        && r.events == [Trade(p.pair.value, p.time, p.tid)] && !r.failed
        && r.feed.historical == feed.historical && r.feed.duplicates == feed.duplicates
  {
    hide Run, ScanAll, Accepted, BooksOf, Newest;
    var feed := Run(ops, true).feed;
    OneScanned(feed, p);
    if p.pair.Some? {
      var pair := p.pair.value;
      BooksAre(ops, pair);
      NewestIs(ops, pair);
      if pair in feed.markets && !Historical(feed.markets[pair], p) { SeenIsAccepted(ops, pair, p); }
    }
  }

  /** Of the prints that are not history, the ids kept are exactly those accepted. */
  lemma SeenIsAccepted(ops: seq<Op>, pair: nat, p: Print)
    requires var m := Run(ops, true).feed.markets; pair in m && !Historical(m[pair], p)
    ensures (p.time, p.tid) in Run(ops, true).feed.markets[pair].seen <==> Trade(pair, p.time, p.tid) in Accepted(ops)
  {
    hide Run, Accepted;
    BoundedAsGood(ops);
    var b, l := Run(ops, true).feed.markets, Run(ops, false).feed.markets;
    assert Prunes(b[pair], l[pair]);
    JoinedAlike(b[pair], l[pair], p);
    SeenAccepted(ops, pair, (p.time, p.tid));
  }

  /** With lifetime ids: an id is known exactly when its trade was accepted. */
  lemma {:induction false} SeenAccepted(ops: seq<Op>, pair: nat, id: (int, nat))
    ensures var m := Run(ops, false).feed.markets;
      (pair in m && id in m[pair].seen) <==> Trade(pair, id.0, id.1) in Accepted(ops)
  {
    hide ScanAll;
    if ops != [] {
      var init, op := ops[..|ops| - 1], ops[|ops| - 1];
      SeenAccepted(init, pair, id);
      if op.Trades? {
        BoundedAsGood(init);
        ScanAlike(Run(init, true).feed, Run(init, false).feed, op.prints);
        ScanSees(Run(init, false).feed, op.prints, pair, id);
      }
    }
  }

  lemma {:induction false} ScanSees(feed: Feed, prints: seq<Print>, pair: nat, id: (int, nat))
    ensures var r := ScanAll(feed, prints, false); var m := r.feed.markets;
      (pair in m && id in m[pair].seen) <==>
        (pair in feed.markets && id in feed.markets[pair].seen) || Trade(pair, id.0, id.1) in r.events
  {
    if prints != [] { ScanSees(feed, prints[..|prints| - 1], pair, id); }
  }

  // ---------------------------------------------------------------- as it runs

  class Filter {
    var markets: map<nat, MarketState>
    var historical: nat
    var duplicates: nat

    function View(): Feed
      reads this
    {
      Feed(markets, historical, duplicates)
    }

    constructor ()
      ensures View() == NEW
    {
      markets, historical, duplicates := map[], 0, 0;
    }

    /** The trades of one frame; `ok` is false when a print could not be read. */
    method TradeFrame(prints: seq<Print>) returns (events: seq<Event>, ok: bool)
      modifies this
      ensures var r := ScanAll(old(View()), prints, true);
        View() == r.feed && ok == !r.failed && (ok ==> events == r.events)
    {
      events := [];
      var i := 0;
      while i < |prints|
        invariant 0 <= i <= |prints|
        invariant Scan(View(), events, false) == ScanAll(old(View()), prints[..i], true)
      {
        assert prints[..i + 1][..i] == prints[..i];
        var p := prints[i];
        i := i + 1;
        if p.pair.None? { continue; }
        var pair := p.pair.value;
        if pair !in markets {
          historical := historical + 1;
          continue;
        }
        var s := markets[pair];
        if s.firstBook == 0 || p.time <= s.firstBook || p.time < s.newestTrade - KEEP_MS {
          historical := historical + 1;
          continue;
        }
        if !p.valid {
          FailsOn(old(View()), prints, i);
          return events, false;
        }
        if (p.time, p.tid) in s.seen {
          duplicates := duplicates + 1;
          continue;
        }
        s := s.(seen := s.seen + {(p.time, p.tid)});
        if p.time > s.newestTrade {
          s := s.(newestTrade := p.time);
          s := s.(seen := Recent(s.seen, p.time - KEEP_MS));
        }
        markets := markets[pair := s];
        events := events + [Trade(pair, p.time, p.tid)];
      }
      assert prints[..i] == prints;
      ok := true;
    }

    method BookFrame(pair: nat, time: int, known: bool, now: int) returns (events: seq<Event>)
      modifies this`markets
      ensures (View(), events) == Booked(old(View()), pair, time, known, now)
    {
      events := [];
      if pair !in markets { markets := markets[pair := UNSEEN]; }
      var s := markets[pair];
      assert markets == old(markets)[pair := s];
      if time < s.lastBook { return; }
      if !known {
        s := s.(firstBook := 0);
      } else if s.firstBook == 0 {
        s := s.(firstBook := time);
      }
      s := s.(lastBook := time, received := now);
      markets := markets[pair := s];
      assert markets == old(markets)[pair := s];
      events := [BookEvent(pair, known)];
    }

    method Expire(now: int)
      modifies this`markets
      ensures View() == Expired(old(View()), now)
    {
      var todo, was := markets.Keys, markets;
      while todo != {}
        invariant todo <= was.Keys == markets.Keys
        invariant forall k :: k in todo ==> markets[k] == was[k]
        invariant forall k :: k in was.Keys - todo ==>
          markets[k] == Expired(Feed(was, historical, duplicates), now).markets[k]
        decreases todo
      {
        NoneOrSome(todo);
        var k :| k in todo;
        if Quiet(markets[k], now) { markets := markets[k := markets[k].(received := 0, firstBook := 0)]; }
        todo := todo - {k};
      }
    }

    /** A new connection: ids start over, the counters do not. */
    method Clear()
      modifies this`markets
      ensures View() == old(View()).(markets := map[])
    {
      markets := map[];
    }
  }

  /** Once a frame has failed, the rest of it is not read. */
  lemma {:induction false} FailsOn(feed: Feed, prints: seq<Print>, k: nat)
    requires k <= |prints| && ScanAll(feed, prints[..k], true).failed
    ensures ScanAll(feed, prints, true) == ScanAll(feed, prints[..k], true)
  {
    if k < |prints| {
      assert prints[..|prints| - 1][..k] == prints[..k];
      FailsOn(feed, prints[..|prints| - 1], k);
    } else {
      assert prints[..k] == prints;
    }
  }
}

/**
 The replica of one market's visible book (LIGHTER_ASTER_BOT/src/dryrun/book.rs): feed updates overlaid by
 best levels, and what simulated trades took out of each level.
 */
module Replicas {
  import opened Common
  import opened Feed

  datatype Top = Top(at: int, bid: Level, ask: Level)

  datatype Update =
    | Replace(bids: seq<Level>, asks: seq<Level>)
    | Delta(bids: seq<Level>, asks: seq<Level>)
    | Best(bid: Level, ask: Level)

  datatype State = State(
    book: Book, initialized: bool, depth: Option<nat>, bidFloor: Option<real>, askCeiling: Option<real>,
    replacedUs: int, top: Option<Top>, takenBids: map<real, real>, takenAsks: map<real, real>)

  function Cold(depth: Option<nat>): State {
    State(Book(map[], map[]), false, depth, None, None, 0, None, map[], map[])
  }

  function SideOf(b: Book, s: Side): map<real, real> { if s == Buy then b.bids else b.asks }

  function TakenOf(r: State, s: Side): map<real, real> { if s == Buy then r.takenBids else r.takenAsks }

  function At(m: map<real, real>, price: real): real { if price in m then m[price] else 0.0 }

  /** Size at a price, unknown past the depth the last snapshot showed. */
  function Visible(r: State, s: Side, price: real): Option<real> {
    if s == Buy && r.bidFloor.Some? && price < r.bidFloor.value then None
    else if s == Sell && r.askCeiling.Some? && price > r.askCeiling.value then None
    else Some(At(SideOf(r.book, s), price))
  }

  function Consumed(r: State, s: Side, price: real, qty: real): State {
    if s == Buy then r.(takenBids := r.takenBids[price := At(r.takenBids, price) + qty])
    else r.(takenAsks := r.takenAsks[price := At(r.takenAsks, price) + qty])
  }

  function Invalidated(r: State): State { r.(book := Book(map[], map[]), initialized := false, top := None) }

  function UpTo(side: map<real, real>, price: real): map<real, real> { map p | p in side && p <= price :: side[p] }

  function From(side: map<real, real>, price: real): map<real, real> { map p | p in side && p >= price :: side[p] }

  /** The best levels laid over the book: everything better is gone. */
  function Overlaid(b: Book, bid: Level, ask: Level): Book {
    if bid.price >= ask.price then b
    else Book(Upsert(UpTo(b.bids, bid.price), bid), Upsert(From(b.asks, ask.price), ask))
  }

  function LowestPrice(rows: seq<Level>): (p: real)
    requires rows != []
    ensures (forall i :: 0 <= i < |rows| ==> p <= rows[i].price) && exists i :: 0 <= i < |rows| && rows[i].price == p
  {
    if |rows| == 1 then rows[0].price else RMin(rows[0].price, LowestPrice(rows[1..]))
  }

  function HighestPrice(rows: seq<Level>): (p: real)
    requires rows != []
    ensures (forall i :: 0 <= i < |rows| ==> rows[i].price <= p) && exists i :: 0 <= i < |rows| && rows[i].price == p
  {
    if |rows| == 1 then rows[0].price else RMax(rows[0].price, HighestPrice(rows[1..]))
  }

  function Cut(depth: Option<nat>, n: nat): bool { depth.Some? && n >= depth.value }

  /** What we took of each level, no more than it still shows, and forgotten with it. */
  function Trimmed(taken: map<real, real>, side: map<real, real>): map<real, real> {
    map p | p in taken && RMin(taken[p], At(side, p)) != 0.0 :: RMin(taken[p], At(side, p))
  }

  function Settled(r: State): State {
    r.(takenBids := Trimmed(r.takenBids, r.book.bids), takenAsks := Trimmed(r.takenAsks, r.book.asks))
  }

  /** Older than the state it would overwrite? */
  predicate Stale(r: State, at: int, u: Update) {
    match u
    case Replace(_, _) => r.initialized && at < r.replacedUs
    case Delta(_, _) => false
    case Best(_, _) => at < r.replacedUs || (r.top.Some? && at < r.top.value.at)
  }

  function Replaced(r: State, at: int, bids: seq<Level>, asks: seq<Level>): State {
    var shown := Book(SnapshotSide(bids), SnapshotSide(asks));
    r.(bidFloor := if Cut(r.depth, |bids|) && bids != [] then Some(LowestPrice(bids)) else None,
       askCeiling := if Cut(r.depth, |asks|) && asks != [] then Some(HighestPrice(asks)) else None,
       initialized := true, replacedUs := at,
       book := if r.top.Some? && r.top.value.at > at then Overlaid(shown, r.top.value.bid, r.top.value.ask) else shown)
  }

  /** What an accepted update shows. */
  function Shown(r: State, at: int, u: Update): State {
    match u
    case Replace(bids, asks) => Replaced(r, at, bids, asks)
    case Delta(bids, asks) => r.(book := Book(UpsertAll(r.book.bids, bids), UpsertAll(r.book.asks, asks)))
    case Best(bid, ask) =>
      r.(top := Some(Top(at, bid, ask)), book := if r.initialized then Overlaid(r.book, bid, ask) else r.book)
  }

  function Applied(r: State, at: int, u: Update): State {
    if Stale(r, at, u) then r else Settled(Shown(r, at, u))
  }

  /** After a snapshot, a size is unknown exactly past the worst price of a side its depth cut. */
  lemma VisibleCut(r: State, at: int, bids: seq<Level>, asks: seq<Level>, price: real)
    requires !Stale(r, at, Replace(bids, asks))
    ensures var q := Applied(r, at, Replace(bids, asks));
      && (Visible(q, Buy, price).None? <==>
            && r.depth.Some? && |bids| >= r.depth.value && bids != []
            && forall i :: 0 <= i < |bids| ==> price < bids[i].price)
      && (Visible(q, Sell, price).None? <==>
            && r.depth.Some? && |asks| >= r.depth.value && asks != []
            && forall i :: 0 <= i < |asks| ==> asks[i].price < price)
  {
    hide SnapshotSide, Overlaid, Trimmed;
    if bids != [] {
      var p := LowestPrice(bids);
      var i :| 0 <= i < |bids| && bids[i].price == p;
    }
    if asks != [] {
      var p := HighestPrice(asks);
      var i :| 0 <= i < |asks| && asks[i].price == p;
    }
  }

  // ---------------------------------------------------------------- what an update shows

  function RowsOf(u: Update, s: Side): seq<Level>
    requires !u.Best?
  {
    if s == Buy then u.bids else u.asks
  }

  /** A delta: each price has its last row's size, and what it had where there is none. */
  lemma DeltaShows(r: State, at: int, u: Update, s: Side, price: real)
    requires u.Delta?
    ensures var last := LastSize(RowsOf(u, s), price);
      At(SideOf(Shown(r, at, u).book, s), price) == if last.Some? then last.value else At(SideOf(r.book, s), price)
    ensures Shown(r, at, u).initialized == r.initialized && Shown(r, at, u).top == r.top
  {
    hide UpsertAll;
    var side := SideOf(r.book, s);
    if price in side && side[price] == 0.0 {
      DeltaAt(side, RowsOf(u, s), price);
    } else {
      UpsertShows(side, RowsOf(u, s), price, At(side, price));
    }
  }

  /** The same where an empty level had been kept. */
  lemma {:induction false} DeltaAt(side: map<real, real>, rows: seq<Level>, price: real)
    ensures At(UpsertAll(side, rows), price)
      == if LastSize(rows, price).Some? then LastSize(rows, price).value else At(side, price)
  {
    hide UpsertAll;
    if rows == [] {
      NoRowsUpserted(side);
    } else {
      UpsertLast(side, rows);
      DeltaAt(side, rows[..|rows| - 1], price);
    }
  }

  /** A price better than a laid-over top is gone, the top has its size, and worse prices are as they were. */
  function OverSize(s: Side, top: Level, price: real, was: real): real {
    if price == top.price then top.size
    else if (if s == Buy then price > top.price else price < top.price) then 0.0 else was
  }

  lemma OverlaidShows(b: Book, bid: Level, ask: Level, s: Side, price: real)
    ensures var was := At(SideOf(b, s), price);
      At(SideOf(Overlaid(b, bid, ask), s), price)
        == if bid.price >= ask.price then was else OverSize(s, if s == Buy then bid else ask, price, was)
  {
  }

  /** A snapshot: each price has its last row that is not empty, under a newer top if there is one. */
  lemma ReplaceShows(r: State, at: int, u: Update, s: Side, price: real)
    requires u.Replace?
    ensures var q := Shown(r, at, u); var size := LastFilled(RowsOf(u, s), price);
      && q.initialized && q.replacedUs == at && q.top == r.top
      && At(SideOf(q.book, s), price) ==
         if r.top.Some? && r.top.value.at > at && r.top.value.bid.price < r.top.value.ask.price
         then OverSize(s, if s == Buy then r.top.value.bid else r.top.value.ask, price, size) else size
  {
    hide SnapshotSide, Overlaid;
    SnapshotShows(u.bids, price);
    SnapshotShows(u.asks, price);
    if r.top.Some? {
      OverlaidShows(Book(SnapshotSide(u.bids), SnapshotSide(u.asks)), r.top.value.bid, r.top.value.ask, s, price);
    }
  }

  /** A top: kept, and laid over a warm book. */
  lemma BestShows(r: State, at: int, u: Update, s: Side, price: real)
    requires u.Best?
    ensures var q := Shown(r, at, u); var was := At(SideOf(r.book, s), price);
      && q.top == Some(Top(at, u.bid, u.ask)) && q.initialized == r.initialized
      && At(SideOf(q.book, s), price) ==
         if r.initialized && u.bid.price < u.ask.price
         then OverSize(s, if s == Buy then u.bid else u.ask, price, was) else was
  {
    hide Overlaid;
    OverlaidShows(r.book, u.bid, u.ask, s, price);
  }

  /** What was taken is cut to what the level shows after an accepted update, and forgotten at zero. */
  lemma TakenAfter(r: State, at: int, u: Update, s: Side, price: real)
    ensures var q := Applied(r, at, u);
      At(TakenOf(q, s), price) ==
        if Stale(r, at, u) || price !in TakenOf(r, s) then At(TakenOf(r, s), price)
        else RMin(At(TakenOf(r, s), price), At(SideOf(q.book, s), price))
  {
    hide Shown, Stale, Trimmed;
    var q := Shown(r, at, u);
    assert !Stale(r, at, u) ==> Applied(r, at, u) == Settled(q);
    TrimmedAt(q.takenBids, q.book.bids, price);
    TrimmedAt(q.takenAsks, q.book.asks, price);
    ShownKeepsTaken(r, at, u);
  }

  lemma ShownKeepsTaken(r: State, at: int, u: Update)
    ensures Shown(r, at, u).takenBids == r.takenBids && Shown(r, at, u).takenAsks == r.takenAsks
  {
    hide Overlaid, SnapshotSide, UpsertAll;
  }

  lemma TrimmedAt(taken: map<real, real>, side: map<real, real>, price: real)
    ensures At(Trimmed(taken, side), price) == if price in taken then RMin(taken[price], At(side, price)) else 0.0
  {
  }

  /** An update is refused exactly when it is older than the state it would overwrite. */
  lemma StaleIs(r: State, at: int, u: Update)
    ensures Stale(r, at, u) <==>
      || (u.Replace? && r.initialized && at < r.replacedUs)
      || (u.Best? && (at < r.replacedUs || (r.top.Some? && at < r.top.value.at)))
    ensures Stale(r, at, u) ==> Applied(r, at, u) == r
  {
  }

  // ---------------------------------------------------------------- what a taker can have

  predicate Within(taker: Side, limit: Option<real>, price: real) {
    limit.None? || if taker == Buy then price <= limit.value else price >= limit.value
  }

  function Levels(b: Book, s: Side): seq<Level> { if s == Buy then Descending(b.bids) else Ascending(b.asks) }

  function Free(r: State, next: Option<State>, s: Side, l: Level): real {
    (if next.Some? then RMin(l.size, At(SideOf(next.value.book, s), l.price)) else l.size) - At(TakenOf(r, s), l.price)
  }

  function Offers(r: State, next: Option<State>, taker: Side, limit: Option<real>, levels: seq<Level>): seq<Level>
    decreases |levels|
  {
    if levels == [] || !Within(taker, limit, levels[0].price) then []
    else
      var free := Free(r, next, Opposite(taker), levels[0]);
      (if free > 0.0 then [Level(levels[0].price, free)] else []) + Offers(r, next, taker, limit, levels[1..])
  }

  /** Liquidity a taker can take up to a limit, best first, less what was already taken. */
  function Takeable(r: State, next: Option<State>, taker: Side, limit: Option<real>): seq<Level> {
    Offers(r, next, taker, limit, Levels(r.book, Opposite(taker)))
  }

  // ---------------------------------------------------------------- impact is bounded by the book

  ghost predicate Sizes(side: map<real, real>) { forall p :: p in side ==> side[p] > 0.0 }

  ghost predicate RowsOk(rows: seq<Level>) { forall i :: 0 <= i < |rows| ==> rows[i].size >= 0.0 }

  ghost predicate UpdateOk(u: Update) {
    match u
    case Replace(bids, asks) => RowsOk(bids) && RowsOk(asks)
    case Delta(bids, asks) => RowsOk(bids) && RowsOk(asks)
    case Best(bid, ask) => bid.size >= 0.0 && ask.size >= 0.0
  }

  ghost predicate NotNegative(taken: map<real, real>) { forall p :: p in taken ==> taken[p] >= 0.0 }

  ghost predicate AtMost(taken: map<real, real>, side: map<real, real>) {
    forall p :: p in taken ==> taken[p] <= At(side, p)
  }

  /** Nothing was taken that is negative and, while warm, none more than its level shows. */
  ghost predicate Bounded(r: State) {
    && NotNegative(r.takenBids) && NotNegative(r.takenAsks)
    && (r.initialized ==> AtMost(r.takenBids, r.book.bids) && AtMost(r.takenAsks, r.book.asks))
  }

  /** No negative size at a price something was taken at. */
  ghost predicate ShowsTaken(r: State) {
    && (forall p :: p in r.takenBids ==> At(r.book.bids, p) >= 0.0)
    && (forall p :: p in r.takenAsks ==> At(r.book.asks, p) >= 0.0)
  }

  lemma TrimmedFits(taken: map<real, real>, side: map<real, real>)
    requires NotNegative(taken)
    ensures AtMost(Trimmed(taken, side), side)
    ensures NotNegative(Trimmed(taken, side)) <==> forall p :: p in taken ==> At(side, p) >= 0.0
  {
    var trimmed := Trimmed(taken, side);
    forall p | p in taken ensures At(side, p) < 0.0 ==> p in trimmed && trimmed[p] < 0.0 { }
  }

  /** An update keeps our impact within the book, unless it shows a negative size where we took something. */
  lemma AppliedBounded(r: State, at: int, u: Update)
    requires Bounded(r)
    ensures Bounded(Applied(r, at, u)) <==> Stale(r, at, u) || ShowsTaken(Shown(r, at, u))
  {
    hide NotNegative, AtMost, Trimmed, Overlaid, SnapshotSide, UpsertAll;
    var q := Shown(r, at, u);
    TrimmedFits(r.takenBids, q.book.bids);
    TrimmedFits(r.takenAsks, q.book.asks);
  }

  // ---------------------------------------------------------------- a feed without negative sizes

  /** Only positive sizes in the book, none negative in the last top. */
  ghost predicate Positive(r: State) {
    && Sizes(r.book.bids) && Sizes(r.book.asks)
    && (r.top.Some? ==> r.top.value.bid.size >= 0.0 && r.top.value.ask.size >= 0.0)
  }

  lemma {:induction false} UpsertAllSizes(side: map<real, real>, rows: seq<Level>)
    requires Sizes(side) && RowsOk(rows)
    ensures Sizes(UpsertAll(side, rows))
    decreases |rows|
  {
    if rows != [] { UpsertAllSizes(Upsert(side, rows[0]), rows[1..]); }
  }

  lemma {:induction false} NonzeroRows(rows: seq<Level>)
    requires RowsOk(rows)
    ensures RowsOk(Nonzero(rows))
  {
    if rows != [] { NonzeroRows(rows[1..]); }
  }

  lemma SnapshotSizes(rows: seq<Level>)
    requires RowsOk(rows)
    ensures Sizes(SnapshotSide(rows))
  {
    NonzeroRows(rows);
    UpsertAllSizes(map[], Nonzero(rows));
  }

  lemma OverlaidSizes(b: Book, bid: Level, ask: Level)
    requires Sizes(b.bids) && Sizes(b.asks) && bid.size >= 0.0 && ask.size >= 0.0
    ensures Sizes(Overlaid(b, bid, ask).bids) && Sizes(Overlaid(b, bid, ask).asks)
  {
  }

  lemma ShownPositive(r: State, at: int, u: Update)
    requires Positive(r) && UpdateOk(u)
    ensures Positive(Shown(r, at, u))
  {
    hide Sizes, RowsOk, Overlaid, SnapshotSide, UpsertAll;
    match u
    case Replace(bids, asks) =>
      SnapshotSizes(bids);
      SnapshotSizes(asks);
      if r.top.Some? { OverlaidSizes(Book(SnapshotSide(bids), SnapshotSide(asks)), r.top.value.bid, r.top.value.ask); }
    case Delta(bids, asks) =>
      UpsertAllSizes(r.book.bids, bids);
      UpsertAllSizes(r.book.asks, asks);
    case Best(bid, ask) =>
      OverlaidSizes(r.book, bid, ask);
  }

  lemma PositiveShows(r: State)
    requires Positive(r)
    ensures ShowsTaken(r)
  {
  }

  // ---------------------------------------------------------------- the offers

  /** A level the taker can have: within its limit, with this much free. */
  ghost predicate Offered(r: State, next: Option<State>, taker: Side, limit: Option<real>, levels: seq<Level>, l: Level)
  {
    exists i :: 0 <= i < |levels| && levels[i].price == l.price && l.size == Free(r, next, Opposite(taker), levels[i])
  }

  /** Once a level is past the limit, so are those after it. */
  ghost predicate BestFirst(taker: Side, levels: seq<Level>) {
    forall i, j :: 0 <= i < j < |levels| ==>
      if taker == Buy then levels[i].price < levels[j].price else levels[i].price > levels[j].price
  }

  lemma OfferedNext(r: State, next: Option<State>, taker: Side, limit: Option<real>, levels: seq<Level>, l: Level)
    requires levels != []
    ensures Offered(r, next, taker, limit, levels, l) <==>
      (levels[0].price == l.price && l.size == Free(r, next, Opposite(taker), levels[0]))
      || Offered(r, next, taker, limit, levels[1..], l)
  {
    if Offered(r, next, taker, limit, levels[1..], l) {
      var i :| 0 <= i < |levels[1..]| && levels[1..][i].price == l.price
        && l.size == Free(r, next, Opposite(taker), levels[1..][i]);
      assert levels[i + 1].price == l.price;
    }
    if Offered(r, next, taker, limit, levels, l) {
      var i :| 0 <= i < |levels| && levels[i].price == l.price && l.size == Free(r, next, Opposite(taker), levels[i]);
      if i > 0 { assert levels[1..][i - 1].price == l.price; }
    }
  }

  /** The offers are exactly the levels within the limit that have something free. */
  lemma {:induction false} OffersExactly(r: State, next: Option<State>, taker: Side, limit: Option<real>,
          levels: seq<Level>, l: Level)
    requires BestFirst(taker, levels)
    ensures l in Offers(r, next, taker, limit, levels)
      <==> l.size > 0.0 && Within(taker, limit, l.price) && Offered(r, next, taker, limit, levels, l)
    decreases |levels|
  {
    hide Free, Offered;
    if levels == [] {
      NoneOffered(r, next, taker, limit, l);
    } else {
      OfferedNext(r, next, taker, limit, levels, l);
      if Within(taker, limit, levels[0].price) {
        OffersExactly(r, next, taker, limit, levels[1..], l);
      } else {
        NoneWithin(r, next, taker, limit, levels, l);
      }
    }
  }

  lemma NoneOffered(r: State, next: Option<State>, taker: Side, limit: Option<real>, l: Level)
    ensures !Offered(r, next, taker, limit, [], l)
  {
  }

  lemma NoneWithin(r: State, next: Option<State>, taker: Side, limit: Option<real>, levels: seq<Level>, l: Level)
    requires levels != [] && BestFirst(taker, levels) && !Within(taker, limit, levels[0].price)
    ensures Offered(r, next, taker, limit, levels, l) ==> !Within(taker, limit, l.price)
  {
  }

  lemma {:induction false} DescendingLists(side: map<real, real>)
    ensures forall l :: l in Descending(side) <==> l.price in side && side[l.price] == l.size
    ensures BestFirst(Sell, Descending(side))
    decreases |side|
  {
    hide Highest, Lowest;
    if side != map[] {
      var p := Highest(side);
      var rest := side - {p};
      DescendingLists(rest);
      var all := Descending(side);
      assert all == [Level(p, side[p])] + Descending(rest);
      forall j | 0 < j < |all| ensures all[j].price < p {
        assert all[j] == Descending(rest)[j - 1];
        assert all[j] in Descending(rest);
      }
    }
  }

  lemma {:induction false} AscendingLists(side: map<real, real>)
    ensures forall l :: l in Ascending(side) <==> l.price in side && side[l.price] == l.size
    ensures BestFirst(Buy, Ascending(side))
    decreases |side|
  {
    hide Highest, Lowest;
    if side != map[] {
      var p := Lowest(side);
      var rest := side - {p};
      AscendingLists(rest);
      var all := Ascending(side);
      assert all == [Level(p, side[p])] + Ascending(rest);
      forall j | 0 < j < |all| ensures p < all[j].price {
        assert all[j] == Ascending(rest)[j - 1];
        assert all[j] in Ascending(rest);
      }
    }
  }

  /** What a taker may take at a level: within its limit, the worse of both states' sizes less what was taken. */
  ghost predicate Available(r: State, next: Option<State>, taker: Side, limit: Option<real>, l: Level) {
    var side := if taker == Buy then r.book.asks else r.book.bids;
    var taken := if taker == Buy then r.takenAsks else r.takenBids;
    && l.size > 0.0 && l.price in side
    && (limit.Some? ==> if taker == Buy then l.price <= limit.value else l.price >= limit.value)
    && l.size + At(taken, l.price) ==
       if next.None? then side[l.price]
       else RMin(side[l.price], At(if taker == Buy then next.value.book.asks else next.value.book.bids, l.price))
  }

  lemma AvailableIs(r: State, next: Option<State>, taker: Side, limit: Option<real>, l: Level)
    ensures var side := SideOf(r.book, Opposite(taker));
      Available(r, next, taker, limit, l) <==>
        && l.size > 0.0 && Within(taker, limit, l.price) && l.price in side
        && l.size == Free(r, next, Opposite(taker), Level(l.price, side[l.price]))
  {
  }

  /** What a taker is offered: exactly the levels where it may take something, best first. */
  lemma TakeableExactly(r: State, next: Option<State>, taker: Side, limit: Option<real>, l: Level)
    ensures l in Takeable(r, next, taker, limit) <==> Available(r, next, taker, limit, l)
    ensures BestFirst(taker, Takeable(r, next, taker, limit))
  {
    hide Free, Offers, Available, Within;
    AvailableIs(r, next, taker, limit, l);
    var side, levels := SideOf(r.book, Opposite(taker)), Levels(r.book, Opposite(taker));
    DescendingLists(side);
    AscendingLists(side);
    OffersExactly(r, next, taker, limit, levels, l);
    OffersInOrder(r, next, taker, limit, levels);
    if l.price in side && l.size == Free(r, next, Opposite(taker), Level(l.price, side[l.price])) {
      assert Level(l.price, side[l.price]) in levels;
      var i :| 0 <= i < |levels| && levels[i] == Level(l.price, side[l.price]);
      assert Offered(r, next, taker, limit, levels, l);
    }
    if Offered(r, next, taker, limit, levels, l) {
      var i :| 0 <= i < |levels| && levels[i].price == l.price && l.size == Free(r, next, Opposite(taker), levels[i]);
      assert levels[i] in levels;
    }
  }

  ghost predicate PricedIn(levels: seq<Level>, l: Level) {
    exists i :: 0 <= i < |levels| && levels[i].price == l.price
  }

  ghost predicate Behind(taker: Side, first: Level, l: Level) {
    if taker == Buy then first.price < l.price else first.price > l.price
  }

  lemma NoneInOrder(taker: Side)
    ensures BestFirst(taker, [])
  {
  }

  lemma RestInOrder(taker: Side, levels: seq<Level>)
    requires levels != [] && BestFirst(taker, levels)
    ensures BestFirst(taker, levels[1..])
  {
  }

  lemma RestBehind(taker: Side, levels: seq<Level>, l: Level)
    requires levels != [] && BestFirst(taker, levels) && PricedIn(levels[1..], l)
    ensures PricedIn(levels, l) && Behind(taker, levels[0], l)
  {
    var i :| 0 <= i < |levels[1..]| && levels[1..][i].price == l.price;
    assert levels[i + 1] == levels[1..][i];
  }

  lemma FirstPriced(levels: seq<Level>, size: real)
    requires levels != []
    ensures PricedIn(levels, Level(levels[0].price, size))
  {
    assert levels[0].price == Level(levels[0].price, size).price;
  }

  lemma FirstInOrder(taker: Side, first: Level, offers: seq<Level>)
    requires BestFirst(taker, offers) && forall l :: l in offers ==> Behind(taker, first, l)
    ensures BestFirst(taker, [first] + offers)
  {
    var all := [first] + offers;
    forall i, j | 0 <= i < j < |all|
      ensures if taker == Buy then all[i].price < all[j].price else all[i].price > all[j].price
    {
      assert all[j] == offers[j - 1];
      if i == 0 { assert Behind(taker, first, offers[j - 1]); } else { assert all[i] == offers[i - 1]; }
    }
  }

  lemma {:induction false} OffersInOrder(r: State, next: Option<State>, taker: Side, limit: Option<real>,
          levels: seq<Level>)
    requires BestFirst(taker, levels)
    ensures BestFirst(taker, Offers(r, next, taker, limit, levels))
    ensures forall l :: l in Offers(r, next, taker, limit, levels) ==> PricedIn(levels, l)
    decreases |levels|
  {
    hide Free, Within, BestFirst, PricedIn;
    if levels == [] || !Within(taker, limit, levels[0].price) {
      NoneInOrder(taker);
    } else {
      var rest := levels[1..];
      RestInOrder(taker, levels);
      OffersInOrder(r, next, taker, limit, rest);
      var offers, free := Offers(r, next, taker, limit, rest), Free(r, next, Opposite(taker), levels[0]);
      forall l | l in offers ensures PricedIn(levels, l) && Behind(taker, levels[0], l) {
        RestBehind(taker, levels, l);
      }
      if free > 0.0 {
        FirstInOrder(taker, Level(levels[0].price, free), offers);
        FirstPriced(levels, free);
      } else {
        assert [] + offers == offers;
      }
    }
  }

  /** Taking no more than was offered stays within the level. */
  lemma ConsumedBounded(r: State, next: Option<State>, taker: Side, limit: Option<real>, l: Level, qty: real)
    requires Bounded(r) && l in Takeable(r, next, taker, limit) && 0.0 <= qty <= l.size
    ensures Bounded(Consumed(r, Opposite(taker), l.price, qty))
  {
    hide Takeable;
    TakeableExactly(r, next, taker, limit, l);
  }

  // ---------------------------------------------------------------- every run

  datatype Op =
    | FeedUpdate(at: int, u: Update)
    | Take(taker: Side, limit: Option<real>, next: Option<State>, l: Level, qty: real)
    | Lost

  /** A fill takes no more than it was offered. */
  ghost predicate WithinOffer(r: State, op: Op) {
    op.Take? ==> op.l in Takeable(r, op.next, op.taker, op.limit) && 0.0 <= op.qty <= op.l.size
  }

  /** An update shows no negative size where something was taken. */
  ghost predicate Benign(r: State, op: Op) {
    op.FeedUpdate? ==> Stale(r, op.at, op.u) || ShowsTaken(Shown(r, op.at, op.u))
  }

  function Step(r: State, op: Op): State {
    match op
    case FeedUpdate(at, u) => Applied(r, at, u)
    case Take(taker, _, _, l, qty) => Consumed(r, Opposite(taker), l.price, qty)
    case Lost => Invalidated(r)
  }

  function Run(depth: Option<nat>, ops: seq<Op>): State {
    if ops == [] then Cold(depth) else Step(Run(depth, ops[..|ops| - 1]), ops[|ops| - 1])
  }

  /** Every run: the book is warm exactly when a snapshot came since the last gap. */
  lemma {:induction false} WarmExactly(depth: Option<nat>, ops: seq<Op>)
    ensures Run(depth, ops).initialized <==>
      exists i :: && 0 <= i < |ops| && ops[i].FeedUpdate? && ops[i].u.Replace?
                  && forall j :: i < j < |ops| ==> !ops[j].Lost?
  {
    hide Shown, Stale, Settled;
    if ops != [] {
      var init, last := ops[..|ops| - 1], ops[|ops| - 1];
      WarmExactly(depth, init);
      WarmNext(Run(depth, init), last);
      assert forall i :: 0 <= i < |init| ==> init[i] == ops[i];
    }
  }

  lemma WarmNext(r: State, op: Op)
    ensures Step(r, op).initialized <==> !op.Lost? && (r.initialized || (op.FeedUpdate? && op.u.Replace?))
  {
    hide SnapshotSide, Overlaid, UpsertAll, Trimmed;
  }

  ghost predicate AllWithinOffer(depth: Option<nat>, ops: seq<Op>) {
    forall i :: 0 <= i < |ops| ==> WithinOffer(Run(depth, ops[..i]), ops[i])
  }

  ghost predicate AllBenign(depth: Option<nat>, ops: seq<Op>) {
    forall i :: 0 <= i < |ops| ==> Benign(Run(depth, ops[..i]), ops[i])
  }

  ghost predicate AlwaysBounded(depth: Option<nat>, ops: seq<Op>) {
    forall i :: 0 <= i <= |ops| ==> Bounded(Run(depth, ops[..i]))
  }

  lemma RunNext(depth: Option<nat>, ops: seq<Op>, i: nat)
    requires i < |ops|
    ensures Run(depth, ops[..i + 1]) == Step(Run(depth, ops[..i]), ops[i])
  {
    assert ops[..i + 1][..i] == ops[..i];
  }

  lemma StepBounded(r: State, op: Op)
    requires Bounded(r) && WithinOffer(r, op)
    ensures Bounded(Step(r, op)) <==> Benign(r, op)
  {
    hide Applied, Takeable;
    match op
    case FeedUpdate(at, u) => AppliedBounded(r, at, u);
    case Take(taker, limit, next, l, qty) => ConsumedBounded(r, next, taker, limit, l, qty);
    case Lost =>
  }

  lemma {:induction false} BoundedUpTo(depth: Option<nat>, ops: seq<Op>, i: nat)
    requires i <= |ops| && AllWithinOffer(depth, ops) && AllBenign(depth, ops)
    ensures Bounded(Run(depth, ops[..i]))
  {
    hide Step, Bounded, WithinOffer, Benign;
    if i == 0 {
      assert ops[..0] == [];
      ColdBounded(depth);
    } else {
      BoundedUpTo(depth, ops, i - 1);
      RunNext(depth, ops, i - 1);
      StepBounded(Run(depth, ops[..i - 1]), ops[i - 1]);
    }
  }

  lemma ColdBounded(depth: Option<nat>)
    ensures Bounded(Run(depth, [])) && Positive(Run(depth, []))
  {
  }

  /**
   Every interleaving of feed updates, gaps and fills of at most what was offered: our impact stays within
   the book throughout exactly when no accepted update shows a negative size where we took something.
   */
  lemma EveryRunExactly(depth: Option<nat>, ops: seq<Op>)
    requires AllWithinOffer(depth, ops)
    ensures AlwaysBounded(depth, ops) <==> AllBenign(depth, ops)
  {
    hide Run, Bounded, WithinOffer, Benign;
    if AllBenign(depth, ops) {
      forall i | 0 <= i <= |ops| ensures Bounded(Run(depth, ops[..i])) { BoundedUpTo(depth, ops, i); }
    }
    if AlwaysBounded(depth, ops) {
      forall i | 0 <= i < |ops| ensures Benign(Run(depth, ops[..i]), ops[i]) {
        RunNext(depth, ops, i);
        assert Bounded(Run(depth, ops[..i + 1]));
        StepBounded(Run(depth, ops[..i]), ops[i]);
      }
    }
  }

  lemma {:induction false} StaysPositive(depth: Option<nat>, ops: seq<Op>, i: nat)
    requires i <= |ops| && forall k :: 0 <= k < |ops| && ops[k].FeedUpdate? ==> UpdateOk(ops[k].u)
    ensures Positive(Run(depth, ops[..i]))
  {
    hide Positive, UpdateOk, Shown;
    if i == 0 {
      assert ops[..0] == [];
      ColdBounded(depth);
    } else {
      StaysPositive(depth, ops, i - 1);
      RunNext(depth, ops, i - 1);
      PositiveStep(Run(depth, ops[..i - 1]), ops[i - 1]);
    }
  }

  lemma PositiveStep(r: State, op: Op)
    requires Positive(r) && (op.FeedUpdate? ==> UpdateOk(op.u))
    ensures Positive(Step(r, op)) && Benign(r, op)
  {
    hide Sizes, UpdateOk, Shown, Takeable;
    if op.FeedUpdate? {
      ShownPositive(r, op.at, op.u);
      PositiveShows(Shown(r, op.at, op.u));
    } else if op.Lost? {
      NoSizes();
    }
  }

  lemma NoSizes()
    ensures Sizes(map[])
  {
  }

  /** So on a feed that shows no negative size: while warm, what we took of a level is between nothing and its size. */
  lemma EveryRunBounded(depth: Option<nat>, ops: seq<Op>)
    requires AllWithinOffer(depth, ops)
    requires forall k :: 0 <= k < |ops| && ops[k].FeedUpdate? ==> UpdateOk(ops[k].u)
    ensures var r := Run(depth, ops);
      && AlwaysBounded(depth, ops)
      && (r.initialized ==> forall s, p :: 0.0 <= At(TakenOf(r, s), p) <= At(SideOf(r.book, s), p))
  {
    hide Run, Step, Bounded, WithinOffer, Benign, Positive, UpdateOk;
    forall i | 0 <= i < |ops| ensures Benign(Run(depth, ops[..i]), ops[i]) {
      StaysPositive(depth, ops, i);
      PositiveStep(Run(depth, ops[..i]), ops[i]);
    }
    EveryRunExactly(depth, ops);
    assert ops[..|ops|] == ops;
    StaysPositive(depth, ops, |ops|);
    var r := Run(depth, ops);
    forall s, p | r.initialized ensures 0.0 <= At(TakenOf(r, s), p) <= At(SideOf(r.book, s), p) { BoundedAt(r, s, p); }
  }

  lemma BoundedAt(r: State, s: Side, p: real)
    requires Bounded(r) && r.initialized && Positive(r)
    ensures 0.0 <= At(TakenOf(r, s), p) <= At(SideOf(r.book, s), p)
  {
  }

  /** A snapshot with a negative size where 3 of 5 were taken, then one without: a level of 4 is offered as 6. */
  lemma NegativeSizeOffersMore() returns (ops: seq<Op>)
    ensures AllWithinOffer(None, ops) && !AllBenign(None, ops)
    ensures var r := Run(None, ops); At(r.book.asks, 100.0) == 4.0 && Level(100.0, 6.0) in Takeable(r, None, Buy, None)
  {
    hide Applied, Takeable, Bounded, Benign;
    var first, negative, again := Level(100.0, 5.0), Level(100.0, -2.0), Level(100.0, 4.0);
    ops := [FeedUpdate(0, Replace([], [first])), Take(Buy, None, None, first, 3.0),
            FeedUpdate(1, Replace([], [negative])), FeedUpdate(2, Replace([], [again]))];
    RunNext(None, ops, 0);
    RunNext(None, ops, 1);
    RunNext(None, ops, 2);
    RunNext(None, ops, 3);
    assert ops[..0] == [] && ops[..4] == ops;
    OneAsk(Run(None, []), 0, first);
    TakeableExactly(Run(None, ops[..1]), None, Buy, None, first);
    OneAsk(Run(None, ops[..2]), 1, negative);
    OneAsk(Run(None, ops[..3]), 2, again);
    TakeableExactly(Run(None, ops), None, Buy, None, Level(100.0, 6.0));
    NotBounded(Run(None, ops), 100.0);
    if AllBenign(None, ops) { BoundedUpTo(None, ops, 4); }
  }

  lemma NotBounded(r: State, p: real)
    requires p in r.takenAsks && r.takenAsks[p] < 0.0
    ensures !Bounded(r)
  {
  }

  /** A snapshot of a single ask. */
  lemma OneAsk(r: State, at: int, l: Level)
    requires r.depth.None? && r.top.None? && r.replacedUs <= at && l.size != 0.0
    requires r.takenBids == map[] && r.takenAsks.Keys <= {l.price}
    ensures var q := Applied(r, at, Replace([], [l]));
      && q == r.(book := Book(map[], map[l.price := l.size]), initialized := true, bidFloor := None, askCeiling := None,
                 replacedUs := at, takenAsks := q.takenAsks)
      && q.takenAsks == if RMin(At(r.takenAsks, l.price), l.size) != 0.0 && l.price in r.takenAsks
                        then map[l.price := RMin(r.takenAsks[l.price], l.size)] else map[]
  {
    OneRow(l);
  }

  lemma OneRow(l: Level)
    requires l.size != 0.0
    ensures SnapshotSide([]) == map[] && SnapshotSide([l]) == map[l.price := l.size]
  {
    assert Nonzero([]) == [];
    assert [l][1..] == [];
    assert Nonzero([l]) == [l];
    assert UpsertAll(map[], [l]) == UpsertAll(Upsert(map[], l), []);
  }

  // ---------------------------------------------------------------- the best levels stand

  /** The book's best levels are these, and so it is not crossed. */
  ghost predicate Tops(b: Book, bid: Level, ask: Level) {
    && bid.price in b.bids && b.bids[bid.price] == bid.size && (forall p :: p in b.bids ==> p <= bid.price)
    && ask.price in b.asks && b.asks[ask.price] == ask.size && (forall p :: p in b.asks ==> ask.price <= p)
    && bid.price < ask.price
  }

  predicate Usable(t: Top) { t.bid.price < t.ask.price && t.bid.size > 0.0 && t.ask.size > 0.0 }

  /** An overlaid top is the book's best, whatever was there. */
  lemma OverlaidTops(b: Book, bid: Level, ask: Level)
    requires bid.price < ask.price && bid.size > 0.0 && ask.size > 0.0
    ensures Tops(Overlaid(b, bid, ask), bid, ask)
  {
  }

  /** A warm book shows the last top, unless a snapshot as new as it replaced the book. */
  ghost predicate TopShows(r: State) {
    (r.initialized && r.top.Some? && Usable(r.top.value) && r.top.value.at > r.replacedUs) ==>
      Tops(r.book, r.top.value.bid, r.top.value.ask)
  }

  /** An accepted top is at once the best, and a snapshot older than it, applied later, leaves it so. */
  lemma TopStands(r: State, at: int, u: Update)
    ensures var q := Applied(r, at, u);
      && (u.Best? && !Stale(r, at, u) && r.initialized && Usable(Top(at, u.bid, u.ask)) ==> Tops(q.book, u.bid, u.ask))
      && ((u.Replace? && !Stale(r, at, u) && r.top.Some? && Usable(r.top.value) && at < r.top.value.at) ==>
            q.initialized && q.top == r.top && Tops(q.book, r.top.value.bid, r.top.value.ask))
  {
    hide Overlaid, Tops, SnapshotSide, Trimmed;
    if !Stale(r, at, u) {
      match u
      case Replace(bids, asks) =>
        if r.top.Some? && Usable(r.top.value) {
          OverlaidTops(Book(SnapshotSide(bids), SnapshotSide(asks)), r.top.value.bid, r.top.value.ask);
        }
      case Best(bid, ask) =>
        if Usable(Top(at, bid, ask)) { OverlaidTops(r.book, bid, ask); }
      case Delta(_, _) =>
    }
  }

  lemma TopStays(r: State, at: int, u: Update)
    requires !u.Delta? && TopShows(r)
    ensures TopShows(Applied(r, at, u))
  {
    hide Overlaid, Tops, SnapshotSide, Trimmed;
    TopStands(r, at, u);
  }

  /** Every run without deltas (the venue that sends best levels sends none): the last top shows. */
  lemma {:induction false} EveryRunShowsTop(depth: Option<nat>, ops: seq<Op>)
    requires forall i :: 0 <= i < |ops| && ops[i].FeedUpdate? ==> !ops[i].u.Delta?
    ensures TopShows(Run(depth, ops))
  {
    hide Applied, Tops;
    if ops != [] {
      EveryRunShowsTop(depth, ops[..|ops| - 1]);
      var r, op := Run(depth, ops[..|ops| - 1]), ops[|ops| - 1];
      if op.FeedUpdate? { TopStays(r, op.at, op.u); }
    }
  }

  // ---------------------------------------------------------------- as it runs

  class Replica {
    const depth: Option<nat>
    var book: Book
    var initialized: bool
    var bidFloor: Option<real>
    var askCeiling: Option<real>
    var replacedUs: int
    var top: Option<Top>
    var takenBids: map<real, real>
    var takenAsks: map<real, real>

    function View(): State
      reads this
    {
      State(book, initialized, depth, bidFloor, askCeiling, replacedUs, top, takenBids, takenAsks)
    }

    constructor (depth: Option<nat>)
      ensures View() == Cold(depth)
    {
      this.depth, book, initialized := depth, Book(map[], map[]), false;
      bidFloor, askCeiling, replacedUs, top := None, None, 0, None;
      takenBids, takenAsks := map[], map[];
    }

    method Consume(side: Side, price: real, qty: real)
      modifies this`takenBids, this`takenAsks
      ensures View() == Consumed(old(View()), side, price, qty)
    {
      if side == Buy {
        takenBids := takenBids[price := At(takenBids, price) + qty];
      } else {
        takenAsks := takenAsks[price := At(takenAsks, price) + qty];
      }
    }

    method Invalidate()
      modifies this`book, this`initialized, this`top
      ensures View() == Invalidated(old(View()))
    {
      book, initialized := Book(map[], map[]), false;
      top := None;
    }

    method Overlay(bid: Level, ask: Level)
      modifies this`book
      ensures book == Overlaid(old(book), bid, ask)
    {
      if bid.price >= ask.price { return; }
      var bids := UpTo(book.bids, bid.price);
      bids := Upsert(bids, bid);
      var asks := From(book.asks, ask.price);
      asks := Upsert(asks, ask);
      book := Book(bids, asks);
    }

    /** Applies one feed update; false for a stale one. */
    method Apply(at: int, u: Update) returns (accepted: bool)
      modifies this
      ensures View() == Applied(old(View()), at, u) && accepted == !Stale(old(View()), at, u)
    {
      hide Overlaid, Trimmed, SnapshotSide, UpsertAll, LowestPrice, HighestPrice;
      match u {
        case Replace(bids, asks) =>
          if initialized && at < replacedUs { return false; }
          bidFloor := if Cut(depth, |bids|) && bids != [] then Some(LowestPrice(bids)) else None;
          askCeiling := if Cut(depth, |asks|) && asks != [] then Some(HighestPrice(asks)) else None;
          book, initialized := Book(SnapshotSide(bids), SnapshotSide(asks)), true;
          replacedUs := at;
          if top.Some? && top.value.at > at { Overlay(top.value.bid, top.value.ask); }
        case Delta(bids, asks) =>
          book := Book(UpsertAll(book.bids, bids), UpsertAll(book.asks, asks));
        case Best(bid, ask) =>
          if at < replacedUs || (top.Some? && at < top.value.at) { return false; }
          top := Some(Top(at, bid, ask));
          if initialized { Overlay(bid, ask); }
      }
      assert View() == Shown(old(View()), at, u);
      takenBids := Trimmed(takenBids, book.bids);
      takenAsks := Trimmed(takenAsks, book.asks);
      accepted := true;
    }
  }
}

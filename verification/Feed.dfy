/**
 The dry run's feed (LIGHTER_ASTER_BOT/src/dryrun/feed.rs): upstream frames are held until their
 shifted publish time, kept as the book the venue has published, and passed on to followers.
 A book side is a map from price to size.
 */
module Feed {
  import opened Common

  datatype Level = Level(price: real, size: real)

  datatype Book = Book(bids: map<real, real>, asks: map<real, real>)

  /** A JSON number field: missing, null, or there. */
  datatype Field = Absent | Null | Number(n: int)

  /** A Lighter order-book message as the bot receives it, its time stamps already shifted. */
  datatype Message = Message(
    snapshot: bool, begin: Option<int>, nonce: Field, offset: Field, envelopeOffset: Field,
    bids: seq<Level>, asks: seq<Level>, timestamp: int, updated: Field, envelopeUpdated: Field)

  datatype Body = Aster(payload: int) | Lighter(message: Message)

  datatype Frame = Frame(stream: string, engineUs: int, publishUs: int, body: Body)

  // ---------------------------------------------------------------- books

  function Upsert(side: map<real, real>, l: Level): map<real, real> {
    if l.size == 0.0 then side - {l.price} else side[l.price := l.size]
  }

  function UpsertAll(side: map<real, real>, rows: seq<Level>): map<real, real>
    decreases |rows|
  {
    if rows == [] then side else UpsertAll(Upsert(side, rows[0]), rows[1..])
  }

  function Nonzero(rows: seq<Level>): seq<Level> {
    if rows == [] then [] else (if rows[0].size == 0.0 then [] else [rows[0]]) + Nonzero(rows[1..])
  }

  /** A snapshot side drops its empty rows first; of the others at one price the last stands. */
  function SnapshotSide(rows: seq<Level>): map<real, real> { UpsertAll(map[], Nonzero(rows)) }

  function ApplyMessage(book: Book, m: Message): Book {
    if m.snapshot then Book(SnapshotSide(m.bids), SnapshotSide(m.asks))
    else Book(UpsertAll(book.bids, m.bids), UpsertAll(book.asks, m.asks))
  }

  ghost predicate IsHighest(prices: set<real>, p: real) { p in prices && forall q :: q in prices ==> q <= p }

  ghost predicate IsLowest(prices: set<real>, p: real) { p in prices && forall q :: q in prices ==> p <= q }

  lemma {:induction false} HasHighest(prices: set<real>)
    requires prices != {}
    ensures exists p :: IsHighest(prices, p)
  {
    var p := Pick(prices);
    var rest := prices - {p};
    if rest == {} {
      assert prices == {p};
      assert IsHighest(prices, p);
    } else {
      HasHighest(rest);
      assert prices == rest + {p};
      var r :| IsHighest(rest, r);
      if p <= r { assert IsHighest(prices, r); } else { assert IsHighest(prices, p); }
    }
  }

  lemma {:induction false} HasLowest(prices: set<real>)
    requires prices != {}
    ensures exists p :: IsLowest(prices, p)
  {
    var p := Pick(prices);
    var rest := prices - {p};
    if rest == {} {
      assert prices == {p};
      assert IsLowest(prices, p);
    } else {
      HasLowest(rest);
      assert prices == rest + {p};
      var r :| IsLowest(rest, r);
      if r <= p { assert IsLowest(prices, r); } else { assert IsLowest(prices, p); }
    }
  }

  lemma SomeKey(side: map<real, real>)
    ensures side == map[] || side.Keys != {}
  {
    if side.Keys == {} { assert side == map[]; }
  }

  function Highest(side: map<real, real>): (p: real)
    requires side != map[]
    ensures p in side && forall q :: q in side ==> q <= p
  {
    SomeKey(side);
    HasHighest(side.Keys);
    var p :| p in side.Keys && forall q :: q in side.Keys ==> q <= p;
    p
  }

  function Lowest(side: map<real, real>): (p: real)
    requires side != map[]
    ensures p in side && forall q :: q in side ==> p <= q
  {
    SomeKey(side);
    HasLowest(side.Keys);
    var p :| p in side.Keys && forall q :: q in side.Keys ==> p <= q;
    p
  }

  /** The whole side, best bid first. */
  function Descending(side: map<real, real>): seq<Level>
    decreases |side|
  {
    if side == map[] then []
    else
      var p := Highest(side);
      [Level(p, side[p])] + Descending(side - {p})
  }

  /** The whole side, best ask first. */
  function Ascending(side: map<real, real>): seq<Level>
    decreases |side|
  {
    if side == map[] then []
    else
      var p := Lowest(side);
      [Level(p, side[p])] + Ascending(side - {p})
  }

  // ---------------------------------------------------------------- sequences

  datatype Seq = Seq(snapshot: bool, begin: Option<int>, nonce: Option<int>, offset: Option<int>)

  datatype Sequence = Sequence(nonce: Option<int>, offset: Option<int>, started: bool)

  datatype Verdict = Apply | SkipStale | Gap

  const UNSTARTED := Sequence(None, None, false)

  function Value(f: Field): Option<int> { if f.Number? then Some(f.n) else None }

  function Or(x: Option<int>, y: Option<int>): Option<int> { if x.Some? then x else y }

  function SeqOf(m: Message): Seq {
    Seq(m.snapshot, m.begin, Value(m.nonce), Or(Value(m.envelopeOffset), Value(m.offset)))
  }

  function Classify(q: Seq, lastNonce: Option<int>, lastOffset: Option<int>): Verdict {
    if q.begin.Some? && lastNonce.Some? then
      if q.begin.value > lastNonce.value then Gap
      else if q.begin.value == lastNonce.value || (q.nonce.Some? && q.nonce.value > lastNonce.value) then Apply
      else SkipStale
    else if q.offset.Some? && lastOffset.Some? then
      if q.offset.value == lastOffset.value + 1 then Apply
      else if q.offset.value <= lastOffset.value then SkipStale
      else Gap
    else Gap
  }

  /** Where a message stands; a snapshot restarts the sequence. */
  function Follow(s: Sequence, q: Seq): (Sequence, Verdict) {
    if q.snapshot then (Sequence(q.nonce, q.offset, true), Apply)
    else if !s.started then (s, Gap)
    else
      var verdict := Classify(q, s.nonce, s.offset);
      if verdict == Apply then (s.(nonce := Or(q.nonce, s.nonce), offset := Or(q.offset, s.offset)), Apply)
      else (s, verdict)
  }

  // ---------------------------------------------------------------- the served book

  datatype Served = Served(book: Book, sequence: Sequence, template: Option<Message>, updatedUs: Option<int>)

  const UNSERVED := Served(Book(map[], map[]), UNSTARTED, None, None)

  /** A released frame. */
  function Release(sv: Served, f: Frame): Served {
    if f.body.Aster? then sv
    else
      var m := f.body.message;
      Served(ApplyMessage(sv.book, m), Follow(sv.sequence, SeqOf(m)).0,
             if m.snapshot then Some(m) else sv.template, Some(f.engineUs))
  }

  /** The field with another value, where it was there and there is one. */
  function Refill(f: Field, v: Option<int>): Field { if f != Absent && v.Some? then Number(v.value) else f }

  /** The snapshot for a subscription at `nowMs`, in the shape of the last upstream one. */
  function Synthesize(sv: Served, nowMs: int, shift: int): Message
    requires sv.template.Some?
  {
    var engine := if sv.updatedUs.Some? then Some(sv.updatedUs.value + shift) else None;
    var t := sv.template.value;
    t.(bids := Descending(sv.book.bids), asks := Ascending(sv.book.asks),
       nonce := Refill(t.nonce, sv.sequence.nonce), offset := Refill(t.offset, sv.sequence.offset),
       envelopeOffset := if t.envelopeOffset == Absent then Absent
                         else if sv.sequence.offset.Some? then Number(sv.sequence.offset.value) else Null,
       timestamp := nowMs, updated := Refill(t.updated, engine), envelopeUpdated := Refill(t.envelopeUpdated, engine))
  }

  // ---------------------------------------------------------------- the hub

  /** What the hub passes to its followers: a frame, numbered in arrival order, or a broken upstream. */
  datatype Relay = Arrived(id: nat, frame: Frame) | Broke

  datatype Hub = Hub(lastId: nat, pending: seq<Frame>, books: map<string, Served>, sent: seq<Relay>)

  function BookOf(books: map<string, Served>, stream: string): Served {
    if stream in books then books[stream] else UNSERVED
  }

  function ReleaseInto(books: map<string, Served>, f: Frame): map<string, Served> {
    if f.body.Aster? then books else books[f.stream := Release(BookOf(books, f.stream), f)]
  }

  /** Publishes what is due. */
  function Advance(h: Hub, shift: int, now: int): Hub
    decreases |h.pending|
  {
    if h.pending != [] && h.pending[0].publishUs + shift <= now
    then Advance(h.(pending := h.pending[1..], books := ReleaseInto(h.books, h.pending[0])), shift, now)
    else h
  }

  function Arrive(h: Hub, shift: int, now: int, f: Frame): Hub {
    var r := Advance(h.(lastId := h.lastId + 1, pending := h.pending + [f]), shift, now);
    r.(sent := r.sent + [Arrived(r.lastId, f)])
  }

  function Break(h: Hub): Hub { h.(pending := [], books := map[], sent := h.sent + [Broke]) }

  /** The frames of one stream. */
  function Of(frames: seq<Frame>, stream: string): seq<Frame> {
    if frames == [] then []
    else
      var n := |frames| - 1;
      Of(frames[..n], stream) + if frames[n].stream == stream then [frames[n]] else []
  }

  datatype Item = Item(at: int, body: Body)

  function Timed(frames: seq<Frame>, shift: int): seq<Item> {
    seq(|frames|, i requires 0 <= i < |frames| => Item(frames[i].publishUs + shift, frames[i].body))
  }

  /** The snapshot a subscription opens with, once one has been released. */
  function Opening(sv: Served, shift: int, now: int): seq<Item> {
    if sv.template.Some? then [Item(now, Lighter(Synthesize(sv, now / 1000, shift)))] else []
  }

  /** What a new subscription gets from a hub already advanced: the published book, then the frames in flight. */
  function First(h: Hub, shift: int, stream: string, now: int): seq<Item> {
    Opening(BookOf(h.books, stream), shift, now) + Timed(Of(h.pending, stream), shift)
  }

  // ---------------------------------------------------------------- the follower

  const FANOUT := 4096

  /** A frame in flight to one bot: published at `at`, released at `release`. */
  datatype Parcel = Parcel(stream: string, at: int, release: int, body: Body)

  datatype Follower = Follower(
    next: Option<nat>, cuts: map<string, nat>, drawn: nat, last: Option<int>, queue: seq<Parcel>, closed: bool)

  const IDLE := Follower(None, map[], 0, None, [], false)

  function Push(f: Follower, draws: nat -> nat, stream: string, x: Item): Follower {
    var release := if f.last.Some? then Max(x.at + draws(f.drawn), f.last.value) else x.at + draws(f.drawn);
    f.(drawn := f.drawn + 1, last := Some(release), queue := f.queue + [Parcel(stream, x.at, release, x.body)])
  }

  function PushAll(f: Follower, draws: nat -> nat, stream: string, xs: seq<Item>): Follower {
    if xs == [] then f
    else Push(PushAll(f, draws, stream, xs[..|xs| - 1]), draws, stream, xs[|xs| - 1])
  }

  /** Subscribes to a stream at a hub already advanced. */
  function Subscribed(f: Follower, draws: nat -> nat, h: Hub, shift: int, stream: string, now: int): Follower {
    var r := f.(next := if f.next.Some? then f.next else Some(|h.sent|));
    var r := PushAll(r, draws, stream, First(h, shift, stream, now));
    r.(cuts := r.cuts[stream := h.lastId])
  }

  /** One relay: a frame beyond its stream's cut is queued; a break, or falling too far behind, closes. */
  function Received(f: Follower, draws: nat -> nat, h: Hub, shift: int): Follower {
    if f.closed || f.next.None? || f.next.value >= |h.sent| then f
    else if |h.sent| - f.next.value > FANOUT then f.(closed := true)
    else
      var r := f.(next := Some(f.next.value + 1));
      match h.sent[f.next.value]
      case Broke => r.(closed := true)
      case Arrived(id, frame) =>
        if frame.stream in r.cuts && id > r.cuts[frame.stream]
        then Push(r, draws, frame.stream, Item(frame.publishUs + shift, frame.body)) else r
  }

  /** The queued frame due now, if any. */
  function Due(f: Follower, now: int): Option<Parcel> {
    if f.queue != [] && f.queue[0].release <= now then Some(f.queue[0]) else None
  }

  // ---------------------------------------------------------------- what rows make of a side

  /** The size in the last row for a price, if there is any. */
  function LastSize(rows: seq<Level>, price: real): Option<real> {
    if rows == [] then None
    else if rows[|rows| - 1].price == price then Some(rows[|rows| - 1].size)
    else LastSize(rows[..|rows| - 1], price)
  }

  /** The size in the last row for a price that is not empty; zero if there is none. */
  function LastFilled(rows: seq<Level>, price: real): real {
    if rows == [] then 0.0
    else if rows[|rows| - 1].price == price && rows[|rows| - 1].size != 0.0 then rows[|rows| - 1].size
    else LastFilled(rows[..|rows| - 1], price)
  }

  /** The side has this size at a price; a price of size zero is not in it. */
  predicate Shows(side: map<real, real>, price: real, size: real) {
    if size == 0.0 then price !in side else price in side && side[price] == size
  }

  lemma {:induction false} UpsertLast(side: map<real, real>, rows: seq<Level>)
    requires rows != []
    ensures UpsertAll(side, rows) == Upsert(UpsertAll(side, rows[..|rows| - 1]), rows[|rows| - 1])
    decreases |rows|
  {
    if |rows| > 1 {
      UpsertLast(Upsert(side, rows[0]), rows[1..]);
      assert rows[1..][..|rows| - 2] == rows[..|rows| - 1][1..];
    }
  }

  /** Rows upserted: each price has its last row's size, and what it had where there is none. */
  lemma {:induction false} UpsertShows(side: map<real, real>, rows: seq<Level>, price: real, size: real)
    requires Shows(side, price, size)
    ensures Shows(UpsertAll(side, rows), price,
                  if LastSize(rows, price).Some? then LastSize(rows, price).value else size)
  {
    hide UpsertAll;
    if rows == [] {
      NoRowsUpserted(side);
    } else {
      UpsertLast(side, rows);
      UpsertShows(side, rows[..|rows| - 1], price, size);
    }
  }

  lemma NoRowsUpserted(side: map<real, real>)
    ensures UpsertAll(side, []) == side
  {
  }

  lemma {:induction false} NonzeroLast(rows: seq<Level>)
    requires rows != []
    ensures var last := rows[|rows| - 1];
      Nonzero(rows) == Nonzero(rows[..|rows| - 1]) + if last.size == 0.0 then [] else [last]
  {
    hide Nonzero;
    NonzeroFirst(rows);
    var init, rest, last := rows[..|rows| - 1], rows[1..], rows[|rows| - 1];
    if |rows| > 1 {
      NonzeroLast(rest);
      NonzeroFirst(init);
      assert rest[..|rows| - 2] == init[1..] && rest[|rows| - 2] == last;
      Regrouped(if rows[0].size == 0.0 then [] else [rows[0]], Nonzero(init[1..]),
                if last.size == 0.0 then [] else [last]);
    } else {
      assert rest == [] && init == [];
      NoneNonzero();
    }
  }

  lemma Regrouped(a: seq<Level>, b: seq<Level>, c: seq<Level>)
    ensures a + (b + c) == (a + b) + c && a + [] == a && [] + a == a
  {
  }

  lemma NonzeroFirst(rows: seq<Level>)
    requires rows != []
    ensures Nonzero(rows) == (if rows[0].size == 0.0 then [] else [rows[0]]) + Nonzero(rows[1..])
  {
  }

  /** A snapshot side has at each price the size of its last row that is not empty. */
  lemma {:induction false} SnapshotShows(rows: seq<Level>, price: real)
    ensures Shows(SnapshotSide(rows), price, LastFilled(rows, price))
  {
    hide UpsertAll, Nonzero;
    if rows == [] {
      NoRowsUpserted(map[]);
      assert Nonzero([]) == [] by { NoneNonzero(); }
    } else {
      var init, last := rows[..|rows| - 1], rows[|rows| - 1];
      SnapshotShows(init, price);
      NonzeroLast(rows);
      if last.size == 0.0 {
        assert Nonzero(init) + [] == Nonzero(init);
      } else {
        var kept := Nonzero(init) + [last];
        assert kept[..|kept| - 1] == Nonzero(init);
        UpsertLast(map[], kept);
      }
    }
  }

  lemma NoneNonzero()
    ensures Nonzero([]) == []
  {
  }
}

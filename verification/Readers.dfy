/**
 What a bot makes of the frames it is given: following the sequence as it follows its own upstream, a
 late subscriber reads the same book as one that subscribed before the first frame.
 */
module Readers {
  import opened Common
  import opened Feed
  import opened Subscribers

  /** A bot's own book of a stream, its place in the sequence, and whether it ever lost it. */
  datatype Reader = Reader(book: Book, sequence: Sequence, lost: bool)

  const FRESH := Reader(Book(map[], map[]), UNSTARTED, false)

  function ReadBody(r: Reader, body: Body): Reader {
    if body.Aster? then r
    else
      var v := Follow(r.sequence, SeqOf(body.message));
      match v.1
      case Apply => Reader(ApplyMessage(r.book, body.message), v.0, r.lost)
      case SkipStale => r
      case Gap => r.(lost := true)
  }

  function ReadItems(r: Reader, xs: seq<Item>): Reader {
    if xs == [] then r else ReadBody(ReadItems(r, xs[..|xs| - 1]), xs[|xs| - 1].body)
  }

  lemma {:induction false} ReadJoin(r: Reader, a: seq<Item>, b: seq<Item>)
    ensures ReadItems(r, a + b) == ReadItems(ReadItems(r, a), b)
  {
    if b == [] {
      assert a + b == a;
    } else {
      ReadJoin(r, a, b[..|b| - 1]);
      assert (a + b)[..|a + b| - 1] == a + b[..|b| - 1];
    }
  }

  // ---------------------------------------------------------------- a snapshot round trip

  ghost predicate NoEmpty(side: map<real, real>) { forall p :: p in side ==> side[p] != 0.0 }

  lemma {:induction false} UpsertAllNoEmpty(side: map<real, real>, rows: seq<Level>)
    requires NoEmpty(side)
    ensures NoEmpty(UpsertAll(side, rows))
    decreases |rows|
  {
    if rows != [] { UpsertAllNoEmpty(Upsert(side, rows[0]), rows[1..]); }
  }

  lemma RowsHead(side: map<real, real>, l: Level, rest: seq<Level>)
    ensures UpsertAll(side, [l] + rest) == UpsertAll(Upsert(side, l), rest)
    ensures Nonzero([l] + rest) == (if l.size == 0.0 then [] else [l]) + Nonzero(rest)
  {
    assert ([l] + rest)[1..] == rest;
  }

  lemma NoRows(side: map<real, real>)
    ensures UpsertAll(side, []) == side && Nonzero([]) == []
  {
  }

  lemma {:induction false} DescendingBack(side: map<real, real>, acc: map<real, real>)
    requires NoEmpty(side)
    ensures Nonzero(Descending(side)) == Descending(side)
    ensures UpsertAll(acc, Descending(side)) == acc + side
    decreases |side|
  {
    hide Nonzero, UpsertAll;
    if side != map[] {
      var p := Highest(side);
      var rest := side - {p};
      DescendingBack(rest, acc[p := side[p]]);
      assert acc[p := side[p]] + rest == acc + side;
      RowsHead(acc, Level(p, side[p]), Descending(rest));
    } else {
      NoRows(acc);
      assert acc + side == acc;
    }
  }

  lemma {:induction false} AscendingBack(side: map<real, real>, acc: map<real, real>)
    requires NoEmpty(side)
    ensures Nonzero(Ascending(side)) == Ascending(side)
    ensures UpsertAll(acc, Ascending(side)) == acc + side
    decreases |side|
  {
    hide Nonzero, UpsertAll;
    if side != map[] {
      var p := Lowest(side);
      var rest := side - {p};
      AscendingBack(rest, acc[p := side[p]]);
      assert acc[p := side[p]] + rest == acc + side;
      RowsHead(acc, Level(p, side[p]), Ascending(rest));
    } else {
      NoRows(acc);
      assert acc + side == acc;
    }
  }

  ghost predicate CleanBook(b: Book) { NoEmpty(b.bids) && NoEmpty(b.asks) }

  /** A book listed as a snapshot reads back as the same book. */
  lemma SnapshotRoundTrip(b: Book, m: Message, was: Book)
    requires CleanBook(b) && m.snapshot && m.bids == Descending(b.bids) && m.asks == Ascending(b.asks)
    ensures ApplyMessage(was, m) == b
  {
    DescendingBack(b.bids, map[]);
    AscendingBack(b.asks, map[]);
    assert map[] + b.bids == b.bids && map[] + b.asks == b.asks;
  }

  lemma ApplyClean(b: Book, m: Message)
    requires CleanBook(b)
    ensures CleanBook(ApplyMessage(b, m))
  {
    UpsertAllNoEmpty(b.bids, m.bids);
    UpsertAllNoEmpty(b.asks, m.asks);
    UpsertAllNoEmpty(map[], Nonzero(m.bids));
    UpsertAllNoEmpty(map[], Nonzero(m.asks));
  }

  // ---------------------------------------------------------------- a late subscriber's opening

  /**
   Whether the venue's last snapshot had the fields the served one must fill in for its deltas to
   continue: a nonce field if the sequence has a nonce, an offset field if it has an offset.
   */
  predicate Positioned(sv: Served) {
    sv.template.Some? ==>
      var t := sv.template.value;
      && (sv.sequence.nonce.Some? ==> t.nonce != Absent)
      && (sv.sequence.offset.Some? ==> t.envelopeOffset != Absent || t.offset != Absent)
  }

  /** What a followed stream's served book and template agree on. */
  ghost predicate Settled(sv: Served) {
    && CleanBook(sv.book) && (sv.template.None? ==> sv == UNSERVED)
    && (sv.template.Some? ==>
          var t := SeqOf(sv.template.value);
          && sv.sequence.started && t.snapshot
          && (sv.sequence.nonce.None? ==> t.nonce.None?) && (sv.sequence.offset.None? ==> t.offset.None?))
  }

  /** A continuous stream: its served book is what a reader of all its frames has. */
  lemma {:induction false} ServedIsRead(frames: seq<Frame>, shift: int)
    requires Continuous(frames)
    ensures var sv := Serve(frames);
      && Settled(sv) && sv.sequence == Followed(frames)
      && ReadItems(FRESH, Timed(frames, shift)) == Reader(sv.book, sv.sequence, false)
  {
    if frames != [] {
      var init, f := frames[..|frames| - 1], frames[|frames| - 1];
      ServedIsRead(init, shift);
      assert Timed(frames, shift)[..|frames| - 1] == Timed(init, shift);
      if f.body.Lighter? { ApplyClean(Serve(init).book, f.body.message); }
    }
  }

  /** The synthesized snapshot puts a reader exactly where the served book stands, if and only if positioned. */
  lemma SynthesizedContinues(sv: Served, nowMs: int, shift: int, r: Reader)
    requires Settled(sv) && sv.template.Some?
    ensures var q := ReadBody(r, Lighter(Synthesize(sv, nowMs, shift)));
      q.book == sv.book && q.lost == r.lost && (q.sequence == sv.sequence <==> Positioned(sv))
  {
    var m := Synthesize(sv, nowMs, shift);
    SnapshotRoundTrip(sv.book, m, r.book);
  }

  lemma OpeningReads(sv: Served, shift: int, now: int)
    requires Settled(sv) && Positioned(sv)
    ensures ReadItems(FRESH, Opening(sv, shift, now)) == Reader(sv.book, sv.sequence, false)
  {
    if sv.template.Some? {
      var x := Item(now, Lighter(Synthesize(sv, now / 1000, shift)));
      assert [x][..0] == [];
      SynthesizedContinues(sv, now / 1000, shift, FRESH);
    }
  }

  lemma {:induction false} ContinuousPrefix(frames: seq<Frame>, k: nat)
    requires k <= |frames| && Continuous(frames)
    ensures Continuous(frames[..k])
  {
    if k < |frames| {
      ContinuousPrefix(frames[..|frames| - 1], k);
      assert frames[..|frames| - 1][..k] == frames[..k];
    } else {
      assert frames[..k] == frames;
    }
  }

  /** Given the book of the first k frames and then the others, a reader ends where all of them lead. */
  lemma LateIsFull(all: seq<Frame>, k: nat, shift: int, now: int)
    requires k <= |all| && Continuous(all) && Positioned(Serve(all[..k]))
    ensures ReadItems(FRESH, Opening(Serve(all[..k]), shift, now) + Timed(all[k..], shift))
      == ReadItems(FRESH, Timed(all, shift))
  {
    hide ReadItems, Opening, Serve, Continuous, Positioned, Timed, Followed, Settled;
    ContinuousPrefix(all, k);
    ServedIsRead(all[..k], shift);
    var sv := Serve(all[..k]);
    OpeningReads(sv, shift, now);
    ReadJoin(FRESH, Opening(sv, shift, now), Timed(all[k..], shift));
    ReadJoin(FRESH, Timed(all[..k], shift), Timed(all[k..], shift));
    TimedSplit(all, k, shift);
  }

  lemma TimedSplit(all: seq<Frame>, k: nat, shift: int)
    requires k <= |all|
    ensures Timed(all, shift) == Timed(all[..k], shift) + Timed(all[k..], shift)
  {
  }

  /** What a late subscriber reads of the book of the published frames and then the rest. */
  function Late(published: seq<Frame>, rest: seq<Frame>, shift: int, now: int): Reader {
    ReadItems(FRESH, Opening(Serve(published), shift, now) + Timed(rest, shift))
  }

  function Full(frames: seq<Frame>, shift: int): Reader { ReadItems(FRESH, Timed(frames, shift)) }

  /** Whatever continuous frames follow the published ones, the late reading is the full one. */
  ghost predicate LateAgrees(published: seq<Frame>, shift: int, now: int) {
    forall rest :: Continuous(published + rest) ==> Late(published, rest, shift, now) == Full(published + rest, shift)
  }

  /** Whatever continuous frames follow the published ones, the late reader has the book. */
  ghost predicate LateShows(published: seq<Frame>, shift: int, now: int) {
    forall rest :: Continuous(published + rest) ==>
      Late(published, rest, shift, now).book == Full(published + rest, shift).book
  }

  /**
   Exactly when the promise holds, of the book alone or of the reader's whole state: the served snapshot
   can carry the published frames' place in the sequence.
   */
  lemma LateExactly(published: seq<Frame>, shift: int, now: int)
    requires Continuous(published)
    ensures LateShows(published, shift, now) <==> Positioned(Serve(published))
    ensures LateAgrees(published, shift, now) <==> Positioned(Serve(published))
  {
    hide ReadItems, Opening, Serve, Continuous, Positioned, Timed, Settled;
    if Positioned(Serve(published)) {
      forall rest | Continuous(published + rest)
        ensures Late(published, rest, shift, now) == Full(published + rest, shift)
      {
        var all := published + rest;
        assert all[..|published|] == published && all[|published|..] == rest;
        LateIsFull(all, |published|, shift, now);
      }
    } else {
      var rest := LateLoses(published, shift, now);
      assert Late(published, rest, shift, now).book != Full(published + rest, shift).book;
    }
  }

  /** The next delta by the field that the served snapshot leaves out, with a bid the book does not have. */
  function NextDelta(sv: Served): Message
    requires !Positioned(sv)
  {
    var bids := [Level(1.0, if 1.0 in sv.book.bids && sv.book.bids[1.0] == 1.0 then 2.0 else 1.0)];
    if sv.sequence.nonce.Some? && sv.template.value.nonce == Absent
    then Message(false, sv.sequence.nonce, Absent, Absent, Absent, bids, [], 0, Absent, Absent)
    else Message(false, None, Absent, Number(sv.sequence.offset.value + 1), Absent, bids, [], 0, Absent, Absent)
  }

  /** It continues the venue's sequence and changes the book; a reader of the served snapshot cannot place it. */
  lemma DeltaLoses(sv: Served, nowMs: int, shift: int)
    requires Settled(sv) && !Positioned(sv)
    ensures Follow(sv.sequence, SeqOf(NextDelta(sv))).1 == Apply && ApplyMessage(sv.book, NextDelta(sv)) != sv.book
    ensures var r := ReadBody(FRESH, Lighter(Synthesize(sv, nowMs, shift)));
      ReadBody(r, Lighter(NextDelta(sv))) == Reader(sv.book, r.sequence, true)
  {
    hide UpsertAll, Nonzero;
    SynthesizedContinues(sv, nowMs, shift, FRESH);
    var bids := NextDelta(sv).bids;
    OneBid(sv.book.bids, bids[0]);
  }

  lemma OneBid(side: map<real, real>, l: Level)
    requires l.size != 0.0
    ensures UpsertAll(side, [l]) == side[l.price := l.size]
  {
    RowsHead(side, l, []);
    assert [l] + [] == [l];
  }

  /** Otherwise one more frame tells: the full reader follows it, and the late one is lost with another book. */
  lemma LateLoses(published: seq<Frame>, shift: int, now: int) returns (rest: seq<Frame>)
    requires Continuous(published) && !Positioned(Serve(published))
    ensures |rest| == 1 && Continuous(published + rest)
    ensures var full, late := Full(published + rest, shift), Late(published, rest, shift, now);
      !full.lost && late.lost && late.book != full.book
  {
    hide Serve, Continuous, Settled, Synthesize, ReadBody, ApplyMessage, Positioned, NextDelta;
    hide Follow, Followed, Release;
    var sv := Serve(published);
    var f := Frame("s", 0, 0, Lighter(NextDelta(sv)));
    rest := [f];
    ServedIsRead(published, shift);
    DeltaLoses(sv, now / 1000, shift);
    FollowedOne(published, f);
    ServedIsRead(published + rest, shift);
    ServeLast(published, f);
    ReleasedBook(sv, f);
    MissesTemplate(sv);
    var x := Item(now, Lighter(Synthesize(sv, now / 1000, shift)));
    var y := Item(shift, f.body);
    assert Opening(sv, shift, now) + Timed(rest, shift) == [x, y];
    TwoRead(FRESH, x, y);
  }

  lemma ReleasedBook(sv: Served, f: Frame)
    requires f.body.Lighter?
    ensures Release(sv, f).book == ApplyMessage(sv.book, f.body.message)
  {
  }

  lemma MissesTemplate(sv: Served)
    ensures !Positioned(sv) ==> sv.template.Some?
  {
  }

  lemma TwoRead(r: Reader, x: Item, y: Item)
    ensures ReadItems(r, [x, y]) == ReadBody(ReadBody(r, x.body), y.body)
  {
    assert [x, y][..1] == [x] && [x][..0] == [];
    assert ReadItems(r, [x]) == ReadBody(r, x.body);
  }

  // ---------------------------------------------------------------- every run

  /** The frames of a subscribed stream that the follower has reached. */
  function FramesOf(n: Net, stream: string): seq<Frame>
    requires stream in n.marks && n.f.next.Some? && n.marks[stream].relayed <= |n.hub.sent|
      && n.f.next.value <= |n.hub.sent|
  {
    Reached(n.hub.sent, n.marks[stream], n.f.next.value, stream)
  }

  lemma CaughtUp(n: Net, stream: string)
    requires stream in n.marks && n.f.next == Some(|n.hub.sent|) && n.marks[stream].relayed <= |n.hub.sent|
    requires Broke !in Relayed(n.hub.sent, n.marks[stream], |n.hub.sent|)
    ensures FramesOf(n, stream) == Of(Session(n.hub.sent), stream)
  {
    var sent, m := n.hub.sent, n.marks[stream];
    var rest := Relayed(sent, m, |sent|);
    assert sent == sent[..m.relayed] + rest;
    ArrivalsJoin(sent[..m.relayed], rest);
    OfJoin(Session(sent[..m.relayed]), Arrivals(rest), stream);
  }

  /** How many of those frames were published when it subscribed. */
  function PublishedBy(n: Net, stream: string): int
    requires stream in n.marks && n.marks[stream].relayed <= |n.hub.sent|
  {
    |Past(n.hub.sent, n.marks[stream], stream)| - n.marks[stream].inFlight
  }

  /** A stream that an open follower is subscribed to, its subscription and its place in the run's relays. */
  predicate Following(n: Net, stream: string) {
    && stream in n.marks && n.f.next.Some? && n.marks[stream].relayed <= |n.hub.sent| && n.f.next.value <= |n.hub.sent|
    && n.marks[stream].queued <= |Queued(n)| && 0 <= PublishedBy(n, stream) <= |FramesOf(n, stream)|
  }

  /** What the follower was given of a stream since it subscribed. */
  function GivenSince(n: Net, stream: string): seq<Item>
    requires Following(n, stream)
  {
    Given(Queued(n)[n.marks[stream].queued..], stream)
  }

  /**
   Every run, every stream an open follower is subscribed to: since that subscription it was given the
   book of the frames published by then and exactly the remaining frames it has reached, in arrival
   order and no break among them.
   */
  lemma LateSubscriberGiven(c: Setup, ops: seq<Op>, stream: string)
    requires var n := Run(c, ops); !n.f.closed && stream in n.f.cuts
    ensures var n := Run(c, ops);
      && Following(n, stream) && Broke !in Relayed(n.hub.sent, n.marks[stream], n.f.next.value)
      && var frames, k := FramesOf(n, stream), PublishedBy(n, stream);
      && GivenSince(n, stream)
         == Opening(Serve(frames[..k]), c.shift, n.marks[stream].now) + Timed(frames[k..], c.shift)
      && (n.f.next.value == |n.hub.sent| ==> frames == Of(Session(n.hub.sent), stream))
  {
    hide Run, Given, Opening, Serve, Timed, HubOk, UpstreamOk, InOrder, Relayed, Session, Of, Arrivals, Queued;
    EveryRun(c, ops);
    var n := Run(c, ops);
    assert CutOk(n, stream) && GivenAll(c, n, stream);
    PublishedFits(n.hub.sent, n.marks[stream], n.f.next.value, stream);
    if n.f.next.value == |n.hub.sent| { CaughtUp(n, stream); }
  }

  /**
   The late subscriber's book: once it has reached every relay, reading what it was given leaves it
   exactly where reading every frame of the session would, provided the snapshot it was served could
   carry its place in the sequence.
   */
  lemma LateSubscriberReads(c: Setup, ops: seq<Op>, stream: string)
    requires var n := Run(c, ops); !n.f.closed && stream in n.f.cuts && n.f.next == Some(|n.hub.sent|)
    requires var n := Run(c, ops);
      Following(n, stream) ==> Positioned(Serve(FramesOf(n, stream)[..PublishedBy(n, stream)]))
    ensures var n := Run(c, ops); var all := Of(Session(n.hub.sent), stream);
      && Following(n, stream)
      && ReadItems(FRESH, GivenSince(n, stream)) == ReadItems(FRESH, Timed(all, c.shift))
      && ReadItems(FRESH, Timed(all, c.shift)) == Reader(Serve(all).book, Followed(all), false)
  {
    hide Run, Given, Opening, Serve, Timed, HubOk, FollowerOk, InOrder, Positioned;
    var n := Run(c, ops);
    LateSubscriberGiven(c, ops, stream);
    EveryRun(c, ops);
    var all := Of(Session(n.hub.sent), stream);
    assert StreamOk(n.sequences, Session(n.hub.sent), stream);
    LateIsFull(all, PublishedBy(n, stream), c.shift, n.marks[stream].now);
    ServedIsRead(all, c.shift);
  }

  /** Every run: frames are queued in release order, none to be released before its publication. */
  lemma ReleasedInOrder(c: Setup, ops: seq<Op>)
    ensures var q := Queued(Run(c, ops));
      && (forall i :: 0 <= i < |q| ==> q[i].at <= q[i].release)
      && (forall i, j :: 0 <= i < j < |q| ==> q[i].release <= q[j].release)
  {
    hide Run, HubOk, UpstreamOk, FollowerOk;
    EveryRun(c, ops);
  }

  /**
   Without the nonce field the promise fails: after a snapshot that carries only an offset and a delta
   that carries a nonce, the served snapshot leaves the nonce out, so the next delta, which continues
   the venue's own sequence by its nonce alone, loses the late subscriber.
   */
  lemma NonceLeftOut() returns (frames: seq<Frame>, k: nat)
    ensures k <= |frames| && Continuous(frames) && !Positioned(Serve(frames[..k]))
    ensures !ReadItems(FRESH, Timed(frames, 0)).lost
    ensures ReadItems(FRESH, Opening(Serve(frames[..k]), 0, 0) + Timed(frames[k..], 0)).lost
  {
    var snapshot := Message(true, None, Absent, Number(1), Absent, [], [], 0, Absent, Absent);
    var second := Message(false, Some(4), Number(5), Number(2), Absent, [], [], 0, Absent, Absent);
    var f1, f2 := Frame("s", 0, 0, Lighter(snapshot)), Frame("s", 0, 0, Lighter(second));
    var published := [f1, f2];
    assert published[..1] == [f1] && [f1][..0] == [];
    assert Continuous([]) && Followed([f1]) == Sequence(None, Some(1), true);
    assert Continuous([f1]) && Followed(published) == Sequence(Some(5), Some(2), true);
    ServedIsRead(published, 0);
    ServeLast([f1], f2);
    ServeLast([], f1);
    assert [] + [f1] == [f1] && [f1] + [f2] == published;
    var rest := LateLoses(published, 0, 0);
    frames, k := published + rest, 2;
    assert frames[..k] == published && frames[k..] == rest;
  }
}

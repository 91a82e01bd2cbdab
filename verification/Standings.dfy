/**
 What a stream's book shows (LIGHTER_ASTER_BOT/src/dryrun/feed.rs), said of the rows of its frames: at each price
 the last row since the last snapshot stands.
 */
module Standings {
  import opened Common
  import opened Feed
  import opened Subscribers
  import opened Readers

  function Rows(m: Message, side: Side): seq<Level> { if side == Buy then m.bids else m.asks }

  function SideOf(b: Book, side: Side): map<real, real> { if side == Buy then b.bids else b.asks }

  /**
   The size the rows leave standing at a price: the last row's since the last snapshot. In the snapshot
   itself only rows that are not empty count; zero if none stands.
   */
  function Standing(frames: seq<Frame>, side: Side, price: real): real {
    if frames == [] then 0.0
    else
      var init, f := frames[..|frames| - 1], frames[|frames| - 1];
      if f.body.Aster? then Standing(init, side, price)
      else if f.body.message.snapshot then LastFilled(Rows(f.body.message, side), price)
      else
        var last := LastSize(Rows(f.body.message, side), price);
        if last.Some? then last.value else Standing(init, side, price)
  }

  /** The served book shows exactly what stands. */
  lemma {:induction false} ServedShows(frames: seq<Frame>, side: Side, price: real)
    ensures Shows(SideOf(Serve(frames).book, side), price, Standing(frames, side, price))
  {
    hide UpsertAll, SnapshotSide, Follow;
    if frames != [] {
      var init, f := frames[..|frames| - 1], frames[|frames| - 1];
      ServedShows(init, side, price);
      if f.body.Lighter? {
        var m := f.body.message;
        SnapshotShows(Rows(m, side), price);
        UpsertShows(SideOf(Serve(init).book, side), Rows(m, side), price, Standing(init, side, price));
      }
    }
  }

  /** So does the book of a reader of continuous frames. */
  lemma ReaderShows(frames: seq<Frame>, shift: int, side: Side, price: real)
    requires Continuous(frames)
    ensures Shows(SideOf(Full(frames, shift).book, side), price, Standing(frames, side, price))
  {
    hide Serve, Continuous, ReadItems, Standing;
    ServedIsRead(frames, shift);
    ServedShows(frames, side, price);
  }

  /** The engine time of the last book frame. */
  function LastEngine(frames: seq<Frame>): Option<int> {
    if frames == [] then None
    else if frames[|frames| - 1].body.Lighter? then Some(frames[|frames| - 1].engineUs)
    else LastEngine(frames[..|frames| - 1])
  }

  /** When the served book was last updated. */
  lemma {:induction false} ServedWhen(frames: seq<Frame>)
    ensures Serve(frames).updatedUs == LastEngine(frames)
  {
    hide Follow, ApplyMessage;
    if frames != [] { ServedWhen(frames[..|frames| - 1]); }
  }

  /** A synthesized snapshot's stamps: now, and the shifted engine time wherever the venue's own snapshot had one. */
  lemma StampsAre(sv: Served, nowMs: int, shift: int)
    requires sv.template.Some? && sv.updatedUs.Some?
    ensures var m, t := Synthesize(sv, nowMs, shift), sv.template.value;
      && m.timestamp == nowMs
      && m.updated == (if t.updated == Absent then Absent else Number(sv.updatedUs.value + shift))
      && m.envelopeUpdated == (if t.envelopeUpdated == Absent then Absent else Number(sv.updatedUs.value + shift))
  {
  }

  // ---------------------------------------------------------------- what continues a sequence

  /** The nonce last given since the last snapshot; a snapshot without one forgets it. */
  function LastNonce(frames: seq<Frame>): Option<int> {
    if frames == [] then None
    else
      var init, f := frames[..|frames| - 1], frames[|frames| - 1];
      if f.body.Aster? then LastNonce(init)
      else if f.body.message.nonce.Number? then Some(f.body.message.nonce.n)
      else if f.body.message.snapshot then None else LastNonce(init)
  }

  /** The offset last given since the last snapshot, the envelope's before the message's own. */
  function LastOffset(frames: seq<Frame>): Option<int> {
    if frames == [] then None
    else
      var init, f := frames[..|frames| - 1], frames[|frames| - 1];
      if f.body.Aster? then LastOffset(init)
      else if f.body.message.envelopeOffset.Number? then Some(f.body.message.envelopeOffset.n)
      else if f.body.message.offset.Number? then Some(f.body.message.offset.n)
      else if f.body.message.snapshot then None else LastOffset(init)
  }

  ghost predicate SawSnapshot(frames: seq<Frame>) {
    exists i :: 0 <= i < |frames| && frames[i].body.Lighter? && frames[i].body.message.snapshot
  }

  function OffsetOf(m: Message): Option<int> {
    if m.envelopeOffset.Number? then Some(m.envelopeOffset.n)
    else if m.offset.Number? then Some(m.offset.n) else None
  }

  /**
   A message continues the frames before it: a snapshot always; a delta after one if it begins at the last
   nonce, or before it and reaches past it; or, where one of those nonces is missing, if its offset is the next.
   */
  ghost predicate Continues(before: seq<Frame>, m: Message) {
    m.snapshot || (
      && SawSnapshot(before)
      && if m.begin.Some? && LastNonce(before).Some? then
           var last := LastNonce(before).value;
           m.begin.value == last || (m.begin.value < last && m.nonce.Number? && m.nonce.n > last)
         else
           OffsetOf(m).Some? && LastOffset(before).Some? && OffsetOf(m).value == LastOffset(before).value + 1)
  }

  lemma {:induction false} FollowedIs(frames: seq<Frame>)
    requires Continuous(frames)
    ensures Followed(frames).nonce == LastNonce(frames) && Followed(frames).offset == LastOffset(frames)
    ensures Followed(frames).started <==> SawSnapshot(frames)
  {
    if frames != [] {
      var init, f := frames[..|frames| - 1], frames[|frames| - 1];
      FollowedIs(init);
      assert frames == init + [f];
      SawOneMore(init, f);
    }
  }

  lemma SawOneMore(frames: seq<Frame>, f: Frame)
    ensures SawSnapshot(frames + [f]) <==> SawSnapshot(frames) || (f.body.Lighter? && f.body.message.snapshot)
  {
    if SawSnapshot(frames) {
      var i :| 0 <= i < |frames| && frames[i].body.Lighter? && frames[i].body.message.snapshot;
      assert (frames + [f])[i] == frames[i];
    }
    assert (frames + [f])[|frames|] == f;
  }

  /** A stream is followed exactly when every book frame continues those before it. */
  lemma {:induction false} ContinuousExactly(frames: seq<Frame>)
    ensures Continuous(frames) <==>
      forall i :: 0 <= i < |frames| && frames[i].body.Lighter? ==> Continues(frames[..i], frames[i].body.message)
  {
    hide Continues;
    if frames != [] {
      var init, f := frames[..|frames| - 1], frames[|frames| - 1];
      ContinuousExactly(init);
      assert forall i :: 0 <= i < |init| ==> init[i] == frames[i] && init[..i] == frames[..i];
      if Continuous(init) && f.body.Lighter? { ContinuesIs(init, f.body.message); }
    }
  }

  /** A delta after a snapshot that the frames before it already cover: by its nonces, or by its offset. */
  ghost predicate Repeats(before: seq<Frame>, m: Message) {
    && !m.snapshot && SawSnapshot(before)
    && if m.begin.Some? && LastNonce(before).Some? then
         var last := LastNonce(before).value;
         m.begin.value < last && (m.nonce.Number? ==> m.nonce.n <= last)
       else
         OffsetOf(m).Some? && LastOffset(before).Some? && OffsetOf(m).value <= LastOffset(before).value
  }

  /** Where a message stands after continuous frames: it continues them, repeats them, or leaves a gap. */
  lemma ContinuesIs(before: seq<Frame>, m: Message)
    requires Continuous(before)
    ensures Continues(before, m) <==> Follow(Followed(before), SeqOf(m)).1 == Apply
    ensures Repeats(before, m) <==> Follow(Followed(before), SeqOf(m)).1 == SkipStale
  {
    hide Continuous, Followed;
    FollowedIs(before);
  }

  // ---------------------------------------------------------------- when a frame is published and released

  /** What is due is published, in order, and nothing else: the first frame left is not due. */
  lemma {:induction false} AdvancePublishes(h: Hub, shift: int, now: int) returns (k: nat)
    ensures k <= |h.pending| && Advance(h, shift, now).pending == h.pending[k..]
    ensures forall i :: 0 <= i < k ==> h.pending[i].publishUs + shift <= now
    ensures k < |h.pending| ==> h.pending[k].publishUs + shift > now
    decreases |h.pending|
  {
    k := 0;
    if h.pending != [] && h.pending[0].publishUs + shift <= now {
      var j := AdvancePublishes(h.(pending := h.pending[1..], books := ReleaseInto(h.books, h.pending[0])), shift, now);
      k := j + 1;
    }
  }

  /** A frame's release: its shifted publication plus its latency draw, or the release ahead of it if that is later. */
  lemma PushReleases(f: Follower, draws: nat -> nat, stream: string, x: Item)
    ensures var r := Push(f, draws, stream, x); var p := r.queue[|r.queue| - 1];
      && r.queue == f.queue + [p] && p.stream == stream && p.at == x.at && p.body == x.body
      && p.release >= x.at + draws(f.drawn) && (f.last.Some? ==> p.release >= f.last.value)
      && (p.release == x.at + draws(f.drawn) || Some(p.release) == f.last)
  {
  }

  /**
   A relay closes a follower exactly when it is a break, or 4096 more have followed it; else a frame beyond its
   stream's cut is queued, and any other is let by.
   */
  lemma ReceivesOne(f: Follower, draws: nat -> nat, h: Hub, shift: int)
    requires !f.closed && f.next.Some? && f.next.value < |h.sent|
    ensures var k, r := f.next.value, Received(f, draws, h, shift); var relay := h.sent[k];
      && (r.closed <==> relay == Broke || |h.sent| - k > 4096)
      && (r.closed ==> r.queue == f.queue)
      && (!r.closed ==> r.next == Some(k + 1) && r.cuts == f.cuts)
      && (!r.closed && relay.frame.stream in f.cuts && relay.id > f.cuts[relay.frame.stream] ==>
            && |r.queue| == |f.queue| + 1 && r.queue[..|f.queue|] == f.queue
            && r.queue[|f.queue|] == Parcel(relay.frame.stream, relay.frame.publishUs + shift,
                                            r.queue[|f.queue|].release, relay.frame.body))
      && (!r.closed && (relay.frame.stream in f.cuts ==> relay.id <= f.cuts[relay.frame.stream]) ==> r.queue == f.queue)
  {
  }
}

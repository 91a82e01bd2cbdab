/**
 Every interleaving of arrivals, publications, subscriptions and breaks: what one follower of the hub
 is given, and why it ends up with the book that a follower from the start has.
 */
module Subscribers {
  import opened Common
  import opened Feed

  datatype Setup = Setup(shift: int, streams: set<string>, draws: nat -> nat)

  /** A subscription: how much had been relayed and queued by then, and when it was made. */
  datatype Mark = Mark(relayed: nat, queued: nat, now: int, inFlight: nat)

  /** The upstream session, the hub, one follower, the frames it has handed its bot, its subscriptions. */
  datatype Net = Net(
    sequences: map<string, Sequence>, forwarded: bool, hub: Hub, f: Follower, taken: seq<Parcel>,
    marks: map<string, Mark>)

  const START := Net(map[], false, Hub(0, [], map[], []), IDLE, [], map[])

  datatype Op =
    | Wire(now: int, frame: Frame)    // the upstream delivers a frame
    | Close                           // its session ends
    | Others(now: int)                // another connection subscribes
    | Subscribe(now: int, stream: string)
    | Unsubscribe(stream: string)
    | Receive                         // the follower takes one relay
    | Take(now: int)                  // the bot takes a frame that is due

  function SequenceOf(sequences: map<string, Sequence>, stream: string): Sequence {
    if stream in sequences then sequences[stream] else UNSTARTED
  }

  function Step(c: Setup, n: Net, op: Op): Net {
    match op
    case Wire(now, frame) =>
      if frame.body.Aster? then n.(forwarded := true, hub := Arrive(n.hub, c.shift, now, frame))
      else
        var v := Follow(SequenceOf(n.sequences, frame.stream), SeqOf(frame.body.message));
        if v.1 != Apply then n
        else n.(sequences := n.sequences[frame.stream := v.0], forwarded := true,
               hub := Arrive(n.hub, c.shift, now, frame))
    case Close => n.(sequences := map[], forwarded := false, hub := if n.forwarded then Break(n.hub) else n.hub)
    case Others(now) => n.(hub := Advance(n.hub, c.shift, now))
    case Subscribe(now, stream) =>
      if n.f.closed || stream !in c.streams then n
      else
        var h := Advance(n.hub, c.shift, now);
        n.(hub := h, f := Subscribed(n.f, c.draws, h, c.shift, stream, now),
           marks := n.marks[stream := Mark(|h.sent|, |n.taken| + |n.f.queue|, now, |Of(h.pending, stream)|)])
    case Unsubscribe(stream) => n.(f := n.f.(cuts := n.f.cuts - {stream}))
    case Receive => n.(f := Received(n.f, c.draws, n.hub, c.shift))
    case Take(now) =>
      var due := Due(n.f, now);
      if due.None? then n else n.(f := n.f.(queue := n.f.queue[1..]), taken := n.taken + [due.value])
  }

  function Run(c: Setup, ops: seq<Op>): Net {
    if ops == [] then START else Step(c, Run(c, ops[..|ops| - 1]), ops[|ops| - 1])
  }

  /** Everything queued for the bot so far, taken or not. */
  function Queued(n: Net): seq<Parcel> { n.taken + n.f.queue }

  // ---------------------------------------------------------------- reading the relays

  /** The frames relayed, in order. */
  function Arrivals(relays: seq<Relay>): seq<Frame> {
    if relays == [] then []
    else
      var last := relays[|relays| - 1];
      Arrivals(relays[..|relays| - 1]) + if last.Arrived? then [last.frame] else []
  }

  /** The frames relayed since the last break. */
  function Session(relays: seq<Relay>): seq<Frame> {
    if relays == [] then []
    else
      var last := relays[|relays| - 1];
      if last.Broke? then [] else Session(relays[..|relays| - 1]) + [last.frame]
  }

  /** What was queued for one stream. */
  function Given(parcels: seq<Parcel>, stream: string): seq<Item> {
    if parcels == [] then []
    else
      var last := parcels[|parcels| - 1];
      Given(parcels[..|parcels| - 1], stream) + if last.stream == stream then [Item(last.at, last.body)] else []
  }

  lemma {:induction false} OfJoin(a: seq<Frame>, b: seq<Frame>, stream: string)
    ensures Of(a + b, stream) == Of(a, stream) + Of(b, stream)
  {
    if b == [] {
      assert a + b == a;
    } else {
      OfJoin(a, b[..|b| - 1], stream);
      assert (a + b)[..|a + b| - 1] == a + b[..|b| - 1];
    }
  }

  lemma {:induction false} GivenJoin(a: seq<Parcel>, b: seq<Parcel>, stream: string)
    ensures Given(a + b, stream) == Given(a, stream) + Given(b, stream)
  {
    if b == [] {
      assert a + b == a;
    } else {
      GivenJoin(a, b[..|b| - 1], stream);
      assert (a + b)[..|a + b| - 1] == a + b[..|b| - 1];
    }
  }

  lemma {:induction false} ArrivalsJoin(a: seq<Relay>, b: seq<Relay>)
    ensures Arrivals(a + b) == Arrivals(a) + Arrivals(b)
    ensures Broke !in b ==> Session(a + b) == Session(a) + Arrivals(b)
  {
    hide Arrivals, Session;
    if b == [] {
      assert a + b == a;
      NoArrivals();
    } else {
      var init, x := b[..|b| - 1], b[|b| - 1];
      ArrivalsJoin(a, init);
      assert a + b == (a + init) + [x] && b == init + [x];
      ReadOne(a + init, x);
      ReadOne(init, x);
    }
  }

  lemma NoArrivals()
    ensures Arrivals([]) == [] == Session([])
  {
  }

  lemma ReadOne(relays: seq<Relay>, x: Relay)
    ensures Arrivals(relays + [x]) == Arrivals(relays) + if x.Broke? then [] else [x.frame]
    ensures Session(relays + [x]) == if x.Broke? then [] else Session(relays) + [x.frame]
  {
    assert (relays + [x])[..|relays|] == relays;
  }

  // ---------------------------------------------------------------- the hub holds the session

  /** The book as published: these frames released in turn. */
  function Serve(frames: seq<Frame>): Served {
    if frames == [] then UNSERVED else Release(Serve(frames[..|frames| - 1]), frames[|frames| - 1])
  }

  /** The frames of the session already released, out of `s`. */
  function Released(h: Hub, s: seq<Frame>): seq<Frame>
    requires |h.pending| <= |s|
  {
    s[..|s| - |h.pending|]
  }

  ghost predicate ShelvesOk(h: Hub, released: seq<Frame>) {
    forall stream :: BookOf(h.books, stream) == Serve(Of(released, stream))
  }

  /** What is in flight is the tail of the session's frames `s`; what came before is in the books. */
  ghost predicate Holds(h: Hub, s: seq<Frame>) {
    && |h.pending| <= |s| && h.pending == s[|s| - |h.pending|..] && ShelvesOk(h, Released(h, s))
  }

  ghost predicate Numbered(sent: seq<Relay>) {
    forall i :: 0 <= i < |sent| && sent[i].Arrived? ==> sent[i].id == |Arrivals(sent[..i])| + 1
  }

  ghost predicate HubOk(h: Hub) {
    Holds(h, Session(h.sent)) && Numbered(h.sent) && h.lastId == |Arrivals(h.sent)|
  }

  lemma ReleaseOne(h: Hub, s: seq<Frame>)
    requires Holds(h, s) && h.pending != []
    ensures Holds(h.(pending := h.pending[1..], books := ReleaseInto(h.books, h.pending[0])), s)
  {
    hide Of, Serve, Release;
    var f := h.pending[0];
    var r := h.(pending := h.pending[1..], books := ReleaseInto(h.books, f));
    var before, after := Released(h, s), Released(r, s);
    assert after == before + [f];
    forall stream ensures BookOf(r.books, stream) == Serve(Of(after, stream)) {
      OfOne(before, f, stream);
      AsterReleases(BookOf(h.books, stream), f);
      assert BookOf(h.books, stream) == Serve(Of(before, stream));
      if f.stream == stream {
        ServeLast(Of(before, stream), f);
      } else {
        assert Of(before, stream) + [] == Of(before, stream);
      }
    }
  }

  lemma AsterReleases(sv: Served, f: Frame)
    ensures f.body.Aster? ==> Release(sv, f) == sv
  {
  }

  lemma ServeLast(frames: seq<Frame>, f: Frame)
    ensures Serve(frames + [f]) == Release(Serve(frames), f)
  {
    assert (frames + [f])[..|frames|] == frames;
  }

  lemma {:induction false} AdvanceHolds(h: Hub, s: seq<Frame>, shift: int, now: int)
    requires Holds(h, s)
    ensures Holds(Advance(h, shift, now), s)
    ensures var r := Advance(h, shift, now); r == h.(pending := r.pending, books := r.books)
    decreases |h.pending|
  {
    hide Holds;
    if h.pending != [] && h.pending[0].publishUs + shift <= now {
      ReleaseOne(h, s);
      AdvanceHolds(h.(pending := h.pending[1..], books := ReleaseInto(h.books, h.pending[0])), s, shift, now);
    }
  }

  lemma ArriveKeeps(h: Hub, shift: int, now: int, f: Frame)
    requires HubOk(h)
    ensures var r := Arrive(h, shift, now, f);
      HubOk(r) && r.sent == h.sent + [Arrived(h.lastId + 1, f)] && Session(r.sent) == Session(h.sent) + [f]
  {
    hide Holds, Session, Arrivals, Advance, Numbered;
    var s := Session(h.sent);
    var q := h.(lastId := h.lastId + 1, pending := h.pending + [f]);
    QueueOne(h, q, s, f);
    AdvanceHolds(q, s + [f], shift, now);
    SentOne(h.sent, Arrived(h.lastId + 1, f));
    SameShelves(Advance(q, shift, now), Arrive(h, shift, now, f), s + [f]);
  }

  lemma QueueOne(h: Hub, q: Hub, s: seq<Frame>, f: Frame)
    requires Holds(h, s) && q.pending == h.pending + [f] && q.books == h.books
    ensures Holds(q, s + [f])
  {
    hide Of, Serve;
    assert Released(q, s + [f]) == Released(h, s);
  }

  lemma SameShelves(h: Hub, r: Hub, s: seq<Frame>)
    requires Holds(h, s) && r.pending == h.pending && r.books == h.books
    ensures Holds(r, s)
  {
    hide Of, Serve;
    assert Released(r, s) == Released(h, s);
    forall stream ensures BookOf(r.books, stream) == Serve(Of(Released(r, s), stream)) {
      assert BookOf(h.books, stream) == Serve(Of(Released(h, s), stream));
    }
  }

  lemma SentOne(sent: seq<Relay>, x: Relay)
    ensures Session(sent + [x]) == if x.Broke? then [] else Session(sent) + [x.frame]
    ensures Arrivals(sent + [x]) == Arrivals(sent) + if x.Broke? then [] else [x.frame]
    ensures Numbered(sent) && (x.Broke? || x.id == |Arrivals(sent)| + 1) ==> Numbered(sent + [x])
  {
    hide Arrivals, Session;
    ReadOne(sent, x);
    var more := sent + [x];
    if Numbered(sent) && (x.Broke? || x.id == |Arrivals(sent)| + 1) {
      forall i | 0 <= i < |more| && more[i].Arrived? ensures more[i].id == |Arrivals(more[..i])| + 1 {
        assert more[..i] == sent[..i];
      }
    }
  }

  lemma BreakKeeps(h: Hub)
    requires HubOk(h)
    ensures HubOk(Break(h)) && Session(Break(h).sent) == []
  {
    SentOne(h.sent, Broke);
    var r := Break(h);
    assert Released(r, []) == [];
    forall stream ensures BookOf(r.books, stream) == Serve(Of([], stream)) { }
  }

  // ---------------------------------------------------------------- the upstream forwards a followed sequence

  /** The sequence after following these frames. */
  function Followed(frames: seq<Frame>): Sequence {
    if frames == [] then UNSTARTED
    else
      var f := frames[|frames| - 1];
      if f.body.Aster? then Followed(frames[..|frames| - 1])
      else Follow(Followed(frames[..|frames| - 1]), SeqOf(f.body.message)).0
  }

  /** Every frame continued the sequence before it. */
  ghost predicate Continuous(frames: seq<Frame>) {
    frames == [] || (
      var f := frames[|frames| - 1];
      && Continuous(frames[..|frames| - 1])
      && (f.body.Lighter? ==> Follow(Followed(frames[..|frames| - 1]), SeqOf(f.body.message)).1 == Apply))
  }

  ghost predicate StreamOk(sequences: map<string, Sequence>, s: seq<Frame>, stream: string) {
    SequenceOf(sequences, stream) == Followed(Of(s, stream)) && Continuous(Of(s, stream))
  }

  ghost predicate UpstreamOk(n: Net) {
    && (forall stream :: StreamOk(n.sequences, Session(n.hub.sent), stream))
    && (!n.forwarded ==> Session(n.hub.sent) == [])
  }

  lemma ForwardKeeps(sequences: map<string, Sequence>, s: seq<Frame>, f: Frame, stream: string)
    requires StreamOk(sequences, s, stream)
    requires f.body.Lighter? ==> Follow(SequenceOf(sequences, f.stream), SeqOf(f.body.message)).1 == Apply
    ensures var after := if f.body.Aster? then sequences
                         else sequences[f.stream := Follow(SequenceOf(sequences, f.stream), SeqOf(f.body.message)).0];
      StreamOk(after, s + [f], stream)
  {
    hide Of, Follow, Followed, Continuous;
    var fs := Of(s, stream);
    OfOne(s, f, stream);
    if f.stream == stream {
      FollowedOne(fs, f);
    } else {
      assert fs + [] == fs;
    }
  }

  lemma FollowedOne(fs: seq<Frame>, f: Frame)
    ensures Followed(fs + [f]) == if f.body.Aster? then Followed(fs) else Follow(Followed(fs), SeqOf(f.body.message)).0
    ensures Continuous(fs + [f]) <==>
      Continuous(fs) && (f.body.Lighter? ==> Follow(Followed(fs), SeqOf(f.body.message)).1 == Apply)
  {
    assert (fs + [f])[..|fs|] == fs;
  }

  // ---------------------------------------------------------------- the follower is given all of it

  function Relayed(sent: seq<Relay>, m: Mark, next: nat): seq<Relay>
    requires m.relayed <= |sent| && next <= |sent|
  {
    if m.relayed <= next then sent[m.relayed..next] else []
  }

  /** The stream's frames of the session up to the subscription. */
  function Past(sent: seq<Relay>, m: Mark, stream: string): seq<Frame>
    requires m.relayed <= |sent|
  {
    Of(Session(sent[..m.relayed]), stream)
  }

  /** All the stream's frames of the session that the follower has reached. */
  function Reached(sent: seq<Relay>, m: Mark, next: nat, stream: string): seq<Frame>
    requires m.relayed <= |sent| && next <= |sent|
  {
    Past(sent, m, stream) + Of(Arrivals(Relayed(sent, m, next)), stream)
  }

  /**
   Since its subscription the follower was given the book of the frames published by then, and then
   exactly the remaining frames it has reached, in arrival order.
   */
  ghost predicate Entire(c: Setup, sent: seq<Relay>, next: nat, m: Mark, queued: seq<Parcel>, stream: string) {
    && m.relayed <= |sent| && next <= |sent| && m.queued <= |queued|
    && m.inFlight <= |Past(sent, m, stream)|
    && Broke !in Relayed(sent, m, next)
    && var published := |Past(sent, m, stream)| - m.inFlight;
    && var all := Reached(sent, m, next, stream);
    && Given(queued[m.queued..], stream)
       == Opening(Serve(all[..published]), c.shift, m.now) + Timed(all[published..], c.shift)
  }

  ghost predicate GivenAll(c: Setup, n: Net, stream: string) {
    && stream in n.marks && n.f.next.Some?
    && Entire(c, n.hub.sent, n.f.next.value, n.marks[stream], Queued(n), stream)
  }

  ghost predicate CutOk(n: Net, stream: string)
    requires stream in n.f.cuts
  {
    stream in n.marks && n.marks[stream].relayed <= |n.hub.sent|
    && n.f.cuts[stream] == |Arrivals(n.hub.sent[..n.marks[stream].relayed])|
  }

  ghost predicate FollowerOk(c: Setup, n: Net) {
    && (n.f.next.Some? ==> n.f.next.value <= |n.hub.sent|)
    && (!n.f.closed ==> forall stream :: stream in n.f.cuts ==> CutOk(n, stream) && GivenAll(c, n, stream))
  }

  /** Nothing is released before it was published, nor before what was queued ahead of it. */
  ghost predicate Orderly(q: seq<Parcel>, last: Option<int>) {
    && (forall i :: 0 <= i < |q| ==> q[i].at <= q[i].release && last.Some? && q[i].release <= last.value)
    && (forall i, j :: 0 <= i < j < |q| ==> q[i].release <= q[j].release)
  }

  ghost predicate InOrder(n: Net) { Orderly(Queued(n), n.f.last) }

  ghost predicate NetOk(c: Setup, n: Net) { HubOk(n.hub) && UpstreamOk(n) && FollowerOk(c, n) && InOrder(n) }

  // ---------------------------------------------------------------- each step keeps it

  /** More relays, later, change nothing for what the follower was given. */
  lemma LaterRelays(c: Setup, n: Net, n': Net, stream: string)
    requires n'.f == n.f && n'.taken == n.taken && n'.marks == n.marks && n.hub.sent <= n'.hub.sent
    requires stream in n.f.cuts
    ensures CutOk(n, stream) ==> CutOk(n', stream)
    ensures GivenAll(c, n, stream) ==> GivenAll(c, n', stream)
  {
    if stream in n.marks && n.marks[stream].relayed <= |n.hub.sent| {
      var m := n.marks[stream];
      assert n'.hub.sent[..m.relayed] == n.hub.sent[..m.relayed];
      if n.f.next.Some? && n.f.next.value <= |n.hub.sent| {
        assert Relayed(n'.hub.sent, m, n.f.next.value) == Relayed(n.hub.sent, m, n.f.next.value);
      }
    }
  }

  lemma HubStepKeeps(c: Setup, n: Net, n': Net)
    requires FollowerOk(c, n) && InOrder(n)
    requires n'.f == n.f && n'.taken == n.taken && n'.marks == n.marks && n.hub.sent <= n'.hub.sent
    ensures FollowerOk(c, n') && InOrder(n')
  {
    hide GivenAll, CutOk;
    forall stream | !n.f.closed && stream in n.f.cuts ensures CutOk(n', stream) && GivenAll(c, n', stream) {
      LaterRelays(c, n, n', stream);
    }
  }

  /** The parcels a batch of pushes queues. */
  lemma {:induction false} PushAllQueues(f: Follower, draws: nat -> nat, stream: string, xs: seq<Item>,
          before: seq<Parcel>)
    returns (ps: seq<Parcel>)
    requires Orderly(before + f.queue, f.last)
    ensures var r := PushAll(f, draws, stream, xs);
      && r == f.(drawn := r.drawn, last := r.last, queue := f.queue + ps)
      && Orderly(before + r.queue, r.last)
    ensures Given(ps, stream) == xs && forall other :: other != stream ==> Given(ps, other) == []
  {
    if xs == [] {
      ps := [];
      assert f.queue + [] == f.queue;
    } else {
      var init := PushAllQueues(f, draws, stream, xs[..|xs| - 1], before);
      var g, x := PushAll(f, draws, stream, xs[..|xs| - 1]), xs[|xs| - 1];
      var r := Push(g, draws, stream, x);
      var parcel := r.queue[|g.queue|];
      ps := init + [parcel];
      PushOrderly(g, draws, stream, x, before);
      assert r.queue == f.queue + ps;
      assert ps[..|init|] == init;
      assert xs == xs[..|xs| - 1] + [x];
    }
  }

  lemma PushOrderly(f: Follower, draws: nat -> nat, stream: string, x: Item, before: seq<Parcel>)
    requires Orderly(before + f.queue, f.last)
    ensures Orderly(before + Push(f, draws, stream, x).queue, Push(f, draws, stream, x).last)
  {
    var r := Push(f, draws, stream, x);
    assert before + r.queue == (before + f.queue) + [r.queue[|f.queue|]];
  }

  lemma EntireStill(c: Setup, sent: seq<Relay>, next: nat, m: Mark, queued: seq<Parcel>, stream: string,
          ps: seq<Parcel>)
    requires Entire(c, sent, next, m, queued, stream) && Given(ps, stream) == []
    ensures Entire(c, sent, next, m, queued + ps, stream)
  {
    hide Past, Reached, Relayed, Serve, Opening, Timed;
    assert (queued + ps)[m.queued..] == queued[m.queued..] + ps;
    GivenJoin(queued[m.queued..], ps, stream);
    assert Given(queued[m.queued..], stream) + [] == Given(queued[m.queued..], stream);
  }

  /** A new subscription opens with the published book and what is in flight. */
  lemma OpensWithAll(c: Setup, n: Net, stream: string, ps: seq<Parcel>)
    requires HubOk(n.hub) && stream in n.marks && n.f.next.Some? && n.f.next.value <= |n.hub.sent|
    requires var m := n.marks[stream];
      && m.relayed == |n.hub.sent| && m.queued <= |Queued(n)| && Queued(n)[m.queued..] == ps
      && m.inFlight == |Of(n.hub.pending, stream)| && Given(ps, stream) == First(n.hub, c.shift, stream, m.now)
    ensures GivenAll(c, n, stream)
  {
    var m, sent := n.marks[stream], n.hub.sent;
    var s := Session(sent);
    assert sent[..m.relayed] == sent;
    assert Relayed(sent, m, n.f.next.value) == [];
    var released := Released(n.hub, s);
    assert s == released + n.hub.pending;
    OfJoin(released, n.hub.pending, stream);
    var all := Reached(sent, m, n.f.next.value, stream);
    assert all == Of(released, stream) + Of(n.hub.pending, stream);
    var published := |Past(sent, m, stream)| - m.inFlight;
    assert all[..published] == Of(released, stream) && all[published..] == Of(n.hub.pending, stream);
    assert BookOf(n.hub.books, stream) == Serve(Of(released, stream));
  }

  /** What a subscription does to the follower. */
  lemma SubscribedQueues(f: Follower, draws: nat -> nat, h: Hub, shift: int, stream: string, now: int,
          before: seq<Parcel>)
    returns (ps: seq<Parcel>)
    requires Orderly(before + f.queue, f.last)
    ensures var r := Subscribed(f, draws, h, shift, stream, now);
      && r.next == (if f.next.Some? then f.next else Some(|h.sent|)) && r.cuts == f.cuts[stream := h.lastId]
      && r.queue == f.queue + ps && r.closed == f.closed && Orderly(before + r.queue, r.last)
    ensures Given(ps, stream) == First(h, shift, stream, now)
    ensures forall other :: other != stream ==> Given(ps, other) == []
  {
    hide PushAll, First, Orderly;
    var g := f.(next := if f.next.Some? then f.next else Some(|h.sent|));
    ps := PushAllQueues(g, draws, stream, First(h, shift, stream, now), before);
  }

  lemma SubscribeKeeps(c: Setup, n: Net, now: int, stream: string)
    requires HubOk(n.hub) && FollowerOk(c, n) && InOrder(n)
    ensures var n' := Step(c, n, Subscribe(now, stream));
      FollowerOk(c, n') && InOrder(n') && HubOk(n'.hub) && n'.hub.sent == n.hub.sent
  {
    hide Entire, First, HubOk, Orderly, Arrivals, Subscribed, Advance;
    if !n.f.closed && stream in c.streams {
      var h := Advance(n.hub, c.shift, now);
      AdvanceKeeps(n.hub, c.shift, now);
      HubStepKeeps(c, n, n.(hub := h));
      var ps := SubscribedQueues(n.f, c.draws, h, c.shift, stream, now, n.taken);
      NewSubscription(c, n.(hub := h), Step(c, n, Subscribe(now, stream)), now, stream, ps);
    }
  }

  lemma NewSubscription(c: Setup, n: Net, n': Net, now: int, stream: string, ps: seq<Parcel>)
    requires HubOk(n.hub) && FollowerOk(c, n) && !n.f.closed
    requires n'.hub == n.hub && n'.taken == n.taken && n'.f.queue == n.f.queue + ps
    requires n'.f.next == if n.f.next.Some? then n.f.next else Some(|n.hub.sent|)
    requires n'.f.cuts == n.f.cuts[stream := n.hub.lastId]
    requires n'.marks == n.marks[stream := Mark(|n.hub.sent|, |Queued(n)|, now, |Of(n.hub.pending, stream)|)]
    requires Given(ps, stream) == First(n.hub, c.shift, stream, now)
    requires forall other :: other != stream ==> Given(ps, other) == []
    ensures FollowerOk(c, n')
  {
    hide Entire, First, HubOk, Arrivals;
    assert Queued(n') == Queued(n) + ps;
    assert Queued(n')[|Queued(n)|..] == ps;
    OpensWithAll(c, n', stream, ps);
    assert n.hub.sent[..|n.hub.sent|] == n.hub.sent;
    LastIdCounts(n.hub);
    OthersKeep(c, n, n', stream, ps);
  }

  /** A subscription leaves the other streams' as they were. */
  lemma OthersKeep(c: Setup, n: Net, n': Net, stream: string, ps: seq<Parcel>)
    requires FollowerOk(c, n) && !n.f.closed && n'.hub == n.hub && Queued(n') == Queued(n) + ps
    requires (n.f.next.Some? ==> n'.f.next == n.f.next) && n'.f.next.Some? && n'.f.next.value <= |n.hub.sent|
    requires forall other :: other in n'.f.cuts && other != stream ==>
      other in n.f.cuts && n'.f.cuts[other] == n.f.cuts[other]
    requires forall other :: other != stream && other in n.marks ==>
      other in n'.marks && n'.marks[other] == n.marks[other]
    requires forall other :: other != stream ==> Given(ps, other) == []
    requires stream in n'.f.cuts && CutOk(n', stream) && GivenAll(c, n', stream)
    ensures FollowerOk(c, n')
  {
    hide Entire, Arrivals, Queued;
    forall other | other in n'.f.cuts && other != stream ensures CutOk(n', other) && GivenAll(c, n', other) {
      assert CutOk(n, other) && GivenAll(c, n, other);
      EntireStill(c, n.hub.sent, n.f.next.value, n.marks[other], Queued(n), other, ps);
    }
  }

  lemma LastIdCounts(h: Hub)
    requires HubOk(h)
    ensures h.lastId == |Arrivals(h.sent)|
  {
  }

  lemma AdvanceKeeps(h: Hub, shift: int, now: int)
    requires HubOk(h)
    ensures HubOk(Advance(h, shift, now)) && Advance(h, shift, now).sent == h.sent
  {
    AdvanceHolds(h, Session(h.sent), shift, now);
  }

  lemma {:induction false} ArrivalsGrow(sent: seq<Relay>, i: nat, j: nat)
    requires i <= j <= |sent|
    ensures |Arrivals(sent[..i])| <= |Arrivals(sent[..j])|
  {
    ArrivalsJoin(sent[..i], sent[i..j]);
    assert sent[..j] == sent[..i] + sent[i..j];
  }

  /** A relayed frame lies beyond a stream's cut exactly when it was relayed after the subscription. */
  lemma CutDivides(sent: seq<Relay>, at: nat, i: nat)
    requires Numbered(sent) && at <= |sent| && i < |sent| && sent[i].Arrived?
    ensures sent[i].id > |Arrivals(sent[..at])| <==> at <= i
  {
    SentOne(sent[..i], sent[i]);
    assert sent[..i + 1] == sent[..i] + [sent[i]];
    if at <= i { ArrivalsGrow(sent, at, i); } else { ArrivalsGrow(sent, i + 1, at); }
  }

  /** One relay further: a frame of the stream beyond the cut, if that is what it was. */
  lemma ReachedOne(sent: seq<Relay>, m: Mark, next: nat, stream: string)
    requires m.relayed <= |sent| && next < |sent| && sent[next].Arrived?
    ensures Reached(sent, m, next + 1, stream) == Reached(sent, m, next, stream)
      + if m.relayed <= next && sent[next].frame.stream == stream then [sent[next].frame] else []
    ensures Broke !in Relayed(sent, m, next) ==> Broke !in Relayed(sent, m, next + 1)
  {
    hide Past, Session, Arrivals;
    var was, past := Relayed(sent, m, next), Past(sent, m, stream);
    if m.relayed <= next {
      assert Relayed(sent, m, next + 1) == was + [sent[next]];
      ReadOne(was, sent[next]);
      OfOne(Arrivals(was), sent[next].frame, stream);
    } else {
      assert Relayed(sent, m, next + 1) == [] == was;
    }
    assert past + Of(Arrivals(was), stream) + [] == past + Of(Arrivals(was), stream);
  }

  lemma OfOne(frames: seq<Frame>, f: Frame, stream: string)
    ensures Of(frames + [f], stream) == Of(frames, stream) + if f.stream == stream then [f] else []
  {
    assert (frames + [f])[..|frames|] == frames;
  }

  lemma TimedOne(fs: seq<Frame>, k: nat, f: Frame, shift: int)
    requires k <= |fs|
    ensures Timed((fs + [f])[k..], shift) == Timed(fs[k..], shift) + [Item(f.publishUs + shift, f.body)]
    ensures (fs + [f])[..k] == fs[..k]
  {
  }

  /** A relay that brings the stream a frame, queued; or one that brings it none. */
  lemma EntireOne(c: Setup, sent: seq<Relay>, next: nat, m: Mark, queued: seq<Parcel>, stream: string, p: Parcel)
    requires Entire(c, sent, next, m, queued, stream) && next < |sent| && sent[next].Arrived?
    ensures !(m.relayed <= next && sent[next].frame.stream == stream) ==> Entire(c, sent, next + 1, m, queued, stream)
    ensures p.stream != stream && !(m.relayed <= next && sent[next].frame.stream == stream)
      ==> Entire(c, sent, next + 1, m, queued + [p], stream)
    ensures m.relayed <= next && sent[next].frame.stream == stream == p.stream
      && p.at == sent[next].frame.publishUs + c.shift && p.body == sent[next].frame.body
      ==> Entire(c, sent, next + 1, m, queued + [p], stream)
  {
    hide Past, Of, Arrivals, Serve, Opening, Reached, Timed;
    var published := |Past(sent, m, stream)| - m.inFlight;
    var all := Reached(sent, m, next, stream);
    ReachedOne(sent, m, next, stream);
    assert all + [] == all;
    PublishedFits(sent, m, next, stream);
    TimedOne(all, published, sent[next].frame, c.shift);
    assert (queued + [p])[m.queued..] == queued[m.queued..] + [p];
    GivenOne(queued[m.queued..], p, stream);
    assert Given(queued[m.queued..], stream) + [] == Given(queued[m.queued..], stream);
  }

  lemma PublishedFits(sent: seq<Relay>, m: Mark, next: nat, stream: string)
    requires m.relayed <= |sent| && next <= |sent|
    ensures |Past(sent, m, stream)| <= |Reached(sent, m, next, stream)|
  {
  }

  lemma GivenOne(queued: seq<Parcel>, p: Parcel, stream: string)
    ensures Given(queued + [p], stream)
      == Given(queued, stream) + if p.stream == stream then [Item(p.at, p.body)] else []
  {
    assert (queued + [p])[..|queued|] == queued;
  }

  lemma ReceiveStream(c: Setup, n: Net, stream: string)
    requires Numbered(n.hub.sent) && stream in n.f.cuts && CutOk(n, stream) && GivenAll(c, n, stream)
    requires var n' := Step(c, n, Receive); !n'.f.closed
    ensures var n' := Step(c, n, Receive); CutOk(n', stream) && GivenAll(c, n', stream)
  {
    hide Entire, Numbered, Arrivals;
    var n' := Step(c, n, Receive);
    var sent, next, m := n.hub.sent, n.f.next.value, n.marks[stream];
    if !n.f.closed && next < |sent| {
      var frame := sent[next].frame;
      CutDivides(sent, m.relayed, next);
      if n'.f.queue == n.f.queue {
        EntireOne(c, sent, next, m, Queued(n), stream, Parcel("", 0, 0, frame.body));
      } else {
        var p := Parcel(frame.stream, frame.publishUs + c.shift, n'.f.queue[|n.f.queue|].release, frame.body);
        assert Queued(n') == Queued(n) + [p];
        EntireOne(c, sent, next, m, Queued(n), stream, p);
      }
    }
  }

  lemma HubNumbers(h: Hub)
    requires HubOk(h)
    ensures Numbered(h.sent)
  {
  }

  lemma ReceiveKeeps(c: Setup, n: Net)
    requires HubOk(n.hub) && FollowerOk(c, n) && InOrder(n)
    ensures var n' := Step(c, n, Receive); FollowerOk(c, n') && InOrder(n')
  {
    hide GivenAll, CutOk, Orderly, HubOk;
    assert Numbered(n.hub.sent) by { HubNumbers(n.hub); }
    hide Numbered;
    var n' := Step(c, n, Receive);
    forall stream | !n'.f.closed && stream in n'.f.cuts ensures CutOk(n', stream) && GivenAll(c, n', stream) {
      ReceiveStream(c, n, stream);
    }
    if n'.f.queue != n.f.queue {
      var frame := n.hub.sent[n.f.next.value].frame;
      PushOrderly(n.f, c.draws, frame.stream, Item(frame.publishUs + c.shift, frame.body), n.taken);
    }
  }

  lemma TakeKeeps(c: Setup, n: Net, now: int)
    requires FollowerOk(c, n) && InOrder(n)
    ensures var n' := Step(c, n, Take(now)); FollowerOk(c, n') && InOrder(n')
  {
    hide Entire, Orderly, Arrivals;
    var n' := Step(c, n, Take(now));
    assert Queued(n') == Queued(n);
    forall stream | !n.f.closed && stream in n.f.cuts ensures CutOk(n', stream) && GivenAll(c, n', stream) {
      assert CutOk(n, stream) && GivenAll(c, n, stream);
    }
  }

  lemma UnsubscribeKeeps(c: Setup, n: Net, gone: string)
    requires FollowerOk(c, n) && InOrder(n)
    ensures var n' := Step(c, n, Unsubscribe(gone)); FollowerOk(c, n') && InOrder(n')
  {
    hide Entire, Orderly, Arrivals;
    var n' := Step(c, n, Unsubscribe(gone));
    forall stream | !n.f.closed && stream in n'.f.cuts ensures CutOk(n', stream) && GivenAll(c, n', stream) {
      assert stream in n.f.cuts && CutOk(n, stream) && GivenAll(c, n, stream);
    }
  }

  lemma WireKeeps(c: Setup, n: Net, now: int, frame: Frame)
    requires NetOk(c, n)
    ensures NetOk(c, Step(c, n, Wire(now, frame)))
  {
    hide HubOk, FollowerOk, InOrder, StreamOk;
    var n' := Step(c, n, Wire(now, frame));
    if n' != n {
      ArriveKeeps(n.hub, c.shift, now, frame);
      LastIdCounts(n.hub);
      HubStepKeeps(c, n, n');
      forall stream ensures StreamOk(n'.sequences, Session(n'.hub.sent), stream) {
        ForwardKeeps(n.sequences, Session(n.hub.sent), frame, stream);
      }
    }
  }

  lemma CloseKeeps(c: Setup, n: Net)
    requires NetOk(c, n)
    ensures NetOk(c, Step(c, n, Close))
  {
    hide HubOk, FollowerOk, InOrder;
    var n' := Step(c, n, Close);
    BreakKeeps(n.hub);
    HubStepKeeps(c, n, n');
  }

  lemma StepKeeps(c: Setup, n: Net, op: Op)
    requires NetOk(c, n)
    ensures NetOk(c, Step(c, n, op))
  {
    hide HubOk, FollowerOk, InOrder, StreamOk, Advance, Subscribed, Received;
    match op
    case Wire(now, frame) => WireKeeps(c, n, now, frame);
    case Close => CloseKeeps(c, n);
    case Others(now) =>
      AdvanceKeeps(n.hub, c.shift, now);
      HubStepKeeps(c, n, Step(c, n, op));
    case Subscribe(now, stream) => SubscribeKeeps(c, n, now, stream);
    case Unsubscribe(stream) => UnsubscribeKeeps(c, n, stream);
    case Receive => ReceiveKeeps(c, n);
    case Take(now) => TakeKeeps(c, n, now);
  }

  lemma StartOk(c: Setup)
    ensures NetOk(c, START)
  {
    assert Released(START.hub, []) == [];
    forall stream ensures BookOf(START.hub.books, stream) == Serve(Of([], stream)) { }
  }

  lemma {:induction false} EveryRun(c: Setup, ops: seq<Op>)
    ensures NetOk(c, Run(c, ops))
  {
    hide NetOk, Step;
    if ops == [] {
      StartOk(c);
    } else {
      EveryRun(c, ops[..|ops| - 1]);
      StepKeeps(c, Run(c, ops[..|ops| - 1]), ops[|ops| - 1]);
    }
  }
}

/**
 The hub and one bot connection as they run: fields updated in place, each method proved to do what the
 function of the same name in module Feed says and to keep the invariants of module Subscribers.
 */
module Connections {
  import opened Common
  import opened Feed
  import Subscribers

  class Relayer {
    const shift: int
    const streams: set<string>
    var lastId: nat
    var pending: seq<Frame>
    var books: map<string, Served>
    var sent: seq<Relay>

    function View(): Hub
      reads this
    {
      Hub(lastId, pending, books, sent)
    }

    /** The session is in the served books and in flight, and relays are numbered by arrival. */
    ghost predicate Valid()
      reads this
    {
      Subscribers.HubOk(View())
    }

    constructor (shift: int, streams: set<string>)
      ensures this.shift == shift && this.streams == streams && View() == Hub(0, [], map[], [])
      ensures Valid()
    {
      hide Subscribers.HubOk;
      this.shift, this.streams := shift, streams;
      lastId, pending, books, sent := 0, [], map[], [];
      Subscribers.StartOk(Subscribers.Setup(shift, streams, NoDelay));
    }

    /** Publishes what is due by `now` into the served books. */
    method Advance(now: int)
      modifies this`pending, this`books
      ensures View() == Feed.Advance(old(View()), shift, now)
      ensures old(Valid()) ==> Valid()
    {
      hide Subscribers.HubOk;
      if Valid() { Subscribers.AdvanceKeeps(View(), shift, now); }
      while pending != [] && pending[0].publishUs + shift <= now
        invariant Feed.Advance(View(), shift, now) == Feed.Advance(old(View()), shift, now)
        decreases |pending|
      {
        var frame := pending[0];
        pending := pending[1..];
        if frame.body.Lighter? {
          books := books[frame.stream := Release(BookOf(books, frame.stream), frame)];
        }
      }
    }

    method Arrive(now: int, frame: Frame)
      requires Valid()
      modifies this
      ensures View() == Feed.Arrive(old(View()), shift, now, frame)
      ensures Valid()
    {
      hide Subscribers.HubOk;
      Subscribers.ArriveKeeps(View(), shift, now, frame);
      lastId := lastId + 1;
      pending := pending + [frame];
      Advance(now);
      sent := sent + [Arrived(lastId, frame)];
    }

    method Break()
      requires Valid()
      modifies this`pending, this`books, this`sent
      ensures View() == Feed.Break(old(View()))
      ensures Valid()
    {
      hide Subscribers.HubOk;
      Subscribers.BreakKeeps(View());
      pending, books := [], map[];
      sent := sent + [Broke];
    }

    /** What a connection subscribing now gets first, and the id of the last frame that covers. */
    method Subscribe(stream: string, now: int) returns (first: seq<Item>, cut: nat)
      requires Valid()
      modifies this`pending, this`books
      ensures View() == Feed.Advance(old(View()), shift, now)
      ensures first == First(View(), shift, stream, now) && cut == lastId
      ensures Valid()
    {
      hide Feed.Advance, Of, Timed, Opening, Subscribers.HubOk;
      Advance(now);
      first := Opening(BookOf(books, stream), shift, now);
      ghost var opening := first;
      NoneTimed(stream, shift);
      assert pending[..0] == [] && first + [] == first;
      var i := 0;
      while i < |pending|
        modifies {}
        invariant 0 <= i <= |pending|
        invariant first == opening + Timed(Of(pending[..i], stream), shift)
      {
        var frame := pending[i];
        TimedNext(pending, i, stream, shift);
        if frame.stream == stream {
          first := first + [Item(frame.publishUs + shift, frame.body)];
        }
        i := i + 1;
      }
      assert pending[..i] == pending;
      cut := lastId;
    }
  }

  function NoDelay(drawn: nat): nat { 0 }

  lemma NoneTimed(stream: string, shift: int)
    ensures Timed(Of([], stream), shift) == []
  {
  }

  lemma TimedNext(frames: seq<Frame>, i: nat, stream: string, shift: int)
    requires i < |frames|
    ensures Timed(Of(frames[..i + 1], stream), shift) == Timed(Of(frames[..i], stream), shift)
      + if frames[i].stream == stream then [Item(frames[i].publishUs + shift, frames[i].body)] else []
  {
    assert frames[..i + 1][..i] == frames[..i];
  }

  /** What holds of a follower and its hub on every run. */
  ghost predicate Sound(c: Subscribers.Setup, n: Subscribers.Net) {
    Subscribers.HubOk(n.hub) && Subscribers.FollowerOk(c, n) && Subscribers.InOrder(n)
  }

  /** Every step of the follower keeps it. */
  lemma StepSound(c: Subscribers.Setup, n: Subscribers.Net, op: Subscribers.Op)
    requires Sound(c, n) && (op.Subscribe? || op.Unsubscribe? || op.Receive? || op.Take?)
    ensures Sound(c, Subscribers.Step(c, n, op))
  {
    hide Subscribers.HubOk, Subscribers.FollowerOk, Subscribers.InOrder, Feed.Advance, Subscribed, Received;
    match op
    case Subscribe(now, stream) => Subscribers.SubscribeKeeps(c, n, now, stream);
    case Unsubscribe(stream) => Subscribers.UnsubscribeKeeps(c, n, stream);
    case Receive => Subscribers.ReceiveKeeps(c, n);
    case Take(now) => Subscribers.TakeKeeps(c, n, now);
  }

  /** What a subscription makes of a follower and its hub; a connection that must close marks it no more. */
  ghost function SubscribedTo(c: Subscribers.Setup, n: Subscribers.Net, now: int, stream: string): Subscribers.Net {
    var h := Feed.Advance(n.hub, c.shift, now);
    n.(hub := h, f := Subscribed(n.f, c.draws, h, c.shift, stream, now),
       marks := if n.f.closed then n.marks
                else
                  var queued := |n.taken| + |n.f.queue|;
                  n.marks[stream := Subscribers.Mark(|h.sent|, queued, now, |Of(h.pending, stream)|)])
  }

  lemma SubscribedSound(c: Subscribers.Setup, n: Subscribers.Net, now: int, stream: string)
    requires Sound(c, n) && stream in c.streams
    ensures Sound(c, SubscribedTo(c, n, now, stream))
    ensures !n.f.closed ==>
      SubscribedTo(c, n, now, stream) == Subscribers.Step(c, n, Subscribers.Subscribe(now, stream))
  {
    hide Subscribers.HubOk, Feed.Advance, First, Subscribed, Subscribers.Orderly, Subscribers.FollowerOk;
    StepSound(c, n, Subscribers.Subscribe(now, stream));
    if n.f.closed {
      var h := Feed.Advance(n.hub, c.shift, now);
      Subscribers.AdvanceKeeps(n.hub, c.shift, now);
      var ps := Subscribers.SubscribedQueues(n.f, c.draws, h, c.shift, stream, now, n.taken);
      ClosedFollows(c, n, SubscribedTo(c, n, now, stream));
    }
  }

  lemma ClosedFollows(c: Subscribers.Setup, n: Subscribers.Net, n': Subscribers.Net)
    requires Subscribers.FollowerOk(c, n) && n'.f.closed && n'.hub.sent == n.hub.sent
    requires n'.f.next == if n.f.next.Some? then n.f.next else Some(|n.hub.sent|)
    ensures Subscribers.FollowerOk(c, n')
  {
  }

  lemma NewSound(c: Subscribers.Setup, h: Hub)
    requires Subscribers.HubOk(h)
    ensures Sound(c, Subscribers.Net(map[], false, h, IDLE, [], map[]))
  {
  }

  class Connection {
    const hub: Relayer
    const draws: nat -> nat
    var next: Option<nat>
    var cuts: map<string, nat>
    var drawn: nat
    var last: Option<int>
    var queue: seq<Parcel>
    var closed: bool
    ghost var taken: seq<Parcel>
    ghost var marks: map<string, Subscribers.Mark>

    function View(): Follower
      reads this
    {
      Follower(next, cuts, drawn, last, queue, closed)
    }

    ghost function Setting(): Subscribers.Setup
      reads hub
    {
      Subscribers.Setup(hub.shift, hub.streams, draws)
    }

    /** The connection and its hub, with what it has handed its bot and its subscriptions. */
    ghost function Whole(): Subscribers.Net
      reads this, hub
    {
      Subscribers.Net(map[], false, hub.View(), View(), taken, marks)
    }

    ghost predicate Valid()
      reads this, hub
    {
      Sound(Setting(), Whole())
    }

    constructor (hub: Relayer, draws: nat -> nat)
      requires hub.Valid()
      ensures this.hub == hub && this.draws == draws && View() == IDLE
      ensures Valid()
    {
      hide Sound, Subscribers.HubOk;
      this.hub, this.draws := hub, draws;
      next, cuts, drawn, last, queue, closed := None, map[], 0, None, [], false;
      taken, marks := [], map[];
      new;
      NewSound(Setting(), hub.View());
    }

    /** Whatever else the hub does, its own methods leave the connection valid. */
    twostate lemma HubMoves()
      requires old(Valid()) && unchanged(this) && hub.Valid() && old(hub.sent) <= hub.sent
      ensures Valid()
    {
      hide Subscribers.HubOk, Subscribers.FollowerOk, Subscribers.InOrder;
      Subscribers.HubStepKeeps(Setting(), old(Whole()), Whole());
    }

    lemma NotCarried(now: int, stream: string)
      ensures stream !in hub.streams ==>
        Subscribers.Step(Setting(), Whole(), Subscribers.Subscribe(now, stream)) == Whole()
    {
    }

    lemma HoldsHub()
      requires Valid()
      ensures hub.Valid()
    {
    }

    /** Queued for release after a latency draw, never before the frame ahead of it. */
    method Push(stream: string, x: Item)
      modifies this`drawn, this`last, this`queue
      ensures View() == Feed.Push(old(View()), draws, stream, x)
    {
      var release := x.at + draws(drawn);
      if last.Some? { release := Max(release, last.value); }
      drawn := drawn + 1;
      last := Some(release);
      queue := queue + [Parcel(stream, x.at, release, x.body)];
    }

    method PushEach(stream: string, xs: seq<Item>)
      modifies this`drawn, this`last, this`queue
      ensures View() == PushAll(old(View()), draws, stream, xs)
    {
      hide Feed.Push;
      var i := 0;
      while i < |xs|
        invariant 0 <= i <= |xs|
        invariant View() == PushAll(old(View()), draws, stream, xs[..i])
      {
        assert xs[..i + 1][..i] == xs[..i];
        Push(stream, xs[i]);
        i := i + 1;
      }
      assert xs[..i] == xs;
    }

    /** Follows `stream` from now on; false if the upstream does not carry it. */
    method Subscribe(stream: string, now: int) returns (ok: bool)
      requires Valid()
      modifies this, hub
      ensures ok == (stream in hub.streams)
      ensures !ok ==> View() == old(View()) && hub.View() == old(hub.View())
      ensures ok ==> hub.View() == Feed.Advance(old(hub.View()), hub.shift, now)
      ensures ok ==> View() == Subscribed(old(View()), draws, hub.View(), hub.shift, stream, now)
      ensures !closed ==> Whole() == Subscribers.Step(Setting(), old(Whole()), Subscribers.Subscribe(now, stream))
      ensures Valid() && closed == old(closed)
    {
      hide Feed.Advance, First, Feed.Push, Sound, Subscribers.HubOk, Of, Subscribers.Step;
      HoldsHub();
      ok := stream in hub.streams;
      NotCarried(now, stream);
      if !ok { return; }
      SubscribedSound(Setting(), Whole(), now, stream);
      var sent := |hub.sent|;
      if next.None? { next := Some(sent); }
      var first, cut := hub.Subscribe(stream, now);
      AdvanceSent(old(hub.View()), hub.shift, now);
      PushEach(stream, first);
      cuts := cuts[stream := cut];
      if !closed {
        marks := marks[stream := Subscribers.Mark(sent, |taken| + |old(queue)|, now, |Of(hub.pending, stream)|)];
      }
    }

    method Unsubscribe(stream: string)
      requires Valid()
      modifies this`cuts
      ensures cuts == old(cuts) - {stream}
      ensures Whole() == Subscribers.Step(Setting(), old(Whole()), Subscribers.Unsubscribe(stream)) && Valid()
    {
      hide Sound;
      StepSound(Setting(), Whole(), Subscribers.Unsubscribe(stream));
      cuts := cuts - {stream};
    }

    /** Takes one relay, if there is one. */
    method Receive()
      requires Valid()
      modifies this
      ensures View() == Received(old(View()), draws, hub.View(), hub.shift)
      ensures Whole() == Subscribers.Step(Setting(), old(Whole()), Subscribers.Receive) && Valid()
    {
      hide Sound;
      StepSound(Setting(), Whole(), Subscribers.Receive);
      if closed || next.None? || next.value >= |hub.sent| { return; }
      if |hub.sent| - next.value > FANOUT {
        closed := true;
        return;
      }
      var relay := hub.sent[next.value];
      next := Some(next.value + 1);
      match relay
      case Broke => closed := true;
      case Arrived(id, frame) =>
        if frame.stream in cuts && id > cuts[frame.stream] {
          Push(frame.stream, Item(frame.publishUs + hub.shift, frame.body));
        }
    }

    /** The next frame due, taken off the queue. */
    method Take(now: int) returns (due: Option<Parcel>)
      requires Valid()
      modifies this`queue, this`taken
      ensures due == Due(old(View()), now)
      ensures queue == (if due.Some? then old(queue)[1..] else old(queue))
      ensures Whole() == Subscribers.Step(Setting(), old(Whole()), Subscribers.Take(now)) && Valid()
    {
      hide Sound;
      StepSound(Setting(), Whole(), Subscribers.Take(now));
      due := None;
      if queue != [] && queue[0].release <= now {
        due := Some(queue[0]);
        taken := taken + [queue[0]];
        queue := queue[1..];
      }
    }
  }

  lemma AdvanceSent(h: Hub, shift: int, now: int)
    ensures Feed.Advance(h, shift, now).sent == h.sent && Feed.Advance(h, shift, now).lastId == h.lastId
    decreases |h.pending|
  {
  }
}

/**
 Best bids and offers, the taker edge and the test for a maker fill (SCREENER/src/collect.rs).
 A loaded line gives a side either an infinite size or none, so a size is finite or infinite.
 */
module Quotes {
  import opened Common

  datatype Size = Finite(q: real) | Infinite

  datatype Bbo = Bbo(bid: real, bidSize: Size, ask: real, askSize: Size)

  const UNKNOWN: Bbo := Bbo(0.0, Finite(0.0), 0.0, Finite(0.0))

  datatype Leg = Left | Right

  predicate Known(b: Bbo) { b.bid > 0.0 && b.ask >= b.bid }

  function Mid(b: Bbo): real { (b.bid + b.ask) / 2.0 }

  /** `px * size >= depth` in floating point: infinity times a non-positive price is not above any depth. */
  predicate Deep(px: real, size: Size, depth: real) {
    match size
    case Finite(q) => px * q >= depth
    case Infinite => px > 0.0
  }

  datatype Edge = Edge(buyLeft: bool, bps: real)

  /** The better direction's executable edge in bps of the left mid. */
  function BestEdge(a: Bbo, l: Bbo, depth: real): (r: Option<Edge>)
    ensures r.Some? ==> Known(a) && Known(l)
  {
    if !Known(a) || !Known(l) then None
    else
      var mid := Mid(a);
      var buy := Deep(a.ask, a.askSize, depth) && Deep(l.bid, l.bidSize, depth);
      var sell := Deep(a.bid, a.bidSize, depth) && Deep(l.ask, l.askSize, depth);
      var b := Edge(true, (l.bid - a.ask) / mid * 10000.0);
      var s := Edge(false, (a.bid - l.ask) / mid * 10000.0);
      if buy && sell then Some(if b.bps >= s.bps then b else s)
      else if buy then Some(b)
      else if sell then Some(s)
      else None
  }

  /** `bps` basis points of a reference price. */
  function BpsOf(bps: real, reference: real): real { bps / 10000.0 * reference }

  /** Could a trade on `venue` have filled a maker quote there priced from `(a, l)`? */
  predicate CouldFill(venue: Leg, buy: bool, price: real, a: Bbo, l: Bbo, minBps: real, depth: real) {
    var own := if venue == Left then a else l;
    var other := if venue == Left then l else a;
    var reference := (Mid(a) + Mid(l)) / 2.0;
    var least := BpsOf(minBps, reference);
    Known(own) && Known(other) &&
    if buy then price > own.ask && price > other.ask + least && Deep(other.ask, other.askSize, depth)
    else price < own.bid && price < other.bid - least && Deep(other.bid, other.bidSize, depth)
  }

  /** Which sides hold `depth`, as bits: 1 left bid, 2 left ask, 4 right bid, 8 right ask. */
  function DepthFlags(a: Bbo, l: Bbo, depth: real): nat {
    (if Deep(a.bid, a.bidSize, depth) then 1 else 0) + (if Deep(a.ask, a.askSize, depth) then 2 else 0) +
    (if Deep(l.bid, l.bidSize, depth) then 4 else 0) + (if Deep(l.ask, l.askSize, depth) then 8 else 0)
  }

  /** The size a loaded line gives the side whose flag has weight `weight`. */
  function SizeOf(flags: nat, weight: nat): Size
    requires weight > 0
  {
    if flags / weight % 2 == 1 then Infinite else Finite(0.0)
  }

  datatype State = State(t: int, a: Bbo, l: Bbo)

  function TimeOf(s: State): int { s.t }

  /** A state as the report reads it back from its line: the prices, and the flags in place of the sizes. */
  function Loaded(s: State, depth: real): State {
    var flags := DepthFlags(s.a, s.l, depth);
    State(s.t, Bbo(s.a.bid, SizeOf(flags, 1), s.a.ask, SizeOf(flags, 2)),
          Bbo(s.l.bid, SizeOf(flags, 4), s.l.ask, SizeOf(flags, 8)))
  }

  /** The flags answer every question about depth as the sizes did, wherever the books are known. */
  lemma FlagsAnswerAsSizes(s: State, depth: real)
    requires depth > 0.0
    ensures var r := Loaded(s, depth);
      && Known(r.a) == Known(s.a) && Known(r.l) == Known(s.l)
      && (Known(s.a) ==> Deep(r.a.bid, r.a.bidSize, depth) == Deep(s.a.bid, s.a.bidSize, depth))
      && (Known(s.a) ==> Deep(r.a.ask, r.a.askSize, depth) == Deep(s.a.ask, s.a.askSize, depth))
      && (Known(s.l) ==> Deep(r.l.bid, r.l.bidSize, depth) == Deep(s.l.bid, s.l.bidSize, depth))
      && (Known(s.l) ==> Deep(r.l.ask, r.l.askSize, depth) == Deep(s.l.ask, s.l.askSize, depth))
    ensures BestEdge(Loaded(s, depth).a, Loaded(s, depth).l, depth) == BestEdge(s.a, s.l, depth)
  {
    var flags := DepthFlags(s.a, s.l, depth);
    var b0, b1, b2, b3 := Deep(s.a.bid, s.a.bidSize, depth), Deep(s.a.ask, s.a.askSize, depth),
                          Deep(s.l.bid, s.l.bidSize, depth), Deep(s.l.ask, s.l.askSize, depth);
    assert (flags / 1 % 2 == 1) == b0;
    assert (flags / 2 % 2 == 1) == b1;
    assert (flags / 4 % 2 == 1) == b2;
    assert (flags / 8 % 2 == 1) == b3;
    var r := Loaded(s, depth);
    assert forall px: real :: !Deep(px, Finite(0.0), depth);
    assert Known(s.a) ==> Deep(r.a.bid, r.a.bidSize, depth) == b0 && Deep(r.a.ask, r.a.askSize, depth) == b1;
    assert Known(s.l) ==> Deep(r.l.bid, r.l.bidSize, depth) == b2 && Deep(r.l.ask, r.l.askSize, depth) == b3;
    assert Mid(r.a) == Mid(s.a);
  }
}

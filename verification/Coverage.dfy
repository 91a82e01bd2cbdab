/**
 The coverage of a journal's obligation (LIGHTER_ASTER_BOT/src/live_report.rs): what its fills leave out of
 an attempt's cumulative progress is added as one fill, and all are put in order of time and line.
 */
module Coverages {
  import opened Common
  import opened Economics
  import opened Journal
  import opened Sums

  /** Does this fill belong to the attempt? */
  predicate Covers(attempt: string, p: Progress, f: Fill) {
    f.venue == p.venue && (
      || f.attempt == attempt
      || (p.clientId.Some? && f.clientId == p.clientId)
      || (p.orderId.Some? && f.orderId == p.orderId))
  }

  function Covered(attempt: string, p: Progress, fills: seq<Fill>): seq<Fill> {
    if fills == [] then []
    else
      var f := fills[|fills| - 1];
      Covered(attempt, p, fills[..|fills| - 1]) + if Covers(attempt, p, f) then [f] else []
  }

  function Qty(f: Fill): real { f.qty }

  /** The sum of a field every fill has, or nothing. */
  function SumKnown(fills: seq<Fill>, field: Fill -> Option<real>): Option<real> {
    if fills == [] then Some(0.0)
    else
      var init, x := SumKnown(fills[..|fills| - 1], field), field(fills[|fills| - 1]);
      if init.Some? && x.Some? then Some(init.value + x.value) else None
  }

  function Quote(f: Fill): Option<real> { f.quote }

  function Fee(f: Fill): Option<real> { f.fee }

  function Less(total: Option<real>, part: Option<real>): Option<real> {
    if total.Some? && part.Some? then Some(total.value - part.value) else None
  }

  /** What the fills leave uncovered of an attempt's quote. */
  function QuoteLeft(attempt: string, p: Progress, fills: seq<Fill>): Option<real> {
    Less(p.quote, SumKnown(Covered(attempt, p, fills), Quote))
  }

  /** The attempt's progress beyond its fills: nothing, a fill, or a malformed row. */
  datatype Rest = Enough | Bad | Add(fill: Fill)

  function RestOf(attempt: string, p: Progress, fills: seq<Fill>): Rest {
    var covered := Covered(attempt, p, fills);
    var raw := Sum(covered, Qty);
    var quote := QuoteLeft(attempt, p, fills);
    if raw >= p.qty then Enough
    else if p.side.None? || (quote.Some? && quote.value <= 0.0) then Bad
    else Add(Fill(p.venue, p.side.value, p.qty - raw, quote, Less(p.fee, SumKnown(covered, Fee)), p.at, p.ordinal,
                  attempt, p.clientId, p.orderId))
  }

  function CoverOne(fills: seq<Fill>, attempt: string, p: Progress): seq<Fill> {
    var rest := RestOf(attempt, p, fills);
    if rest.Add? then fills + [rest.fill] else fills
  }

  /** The fills with every attempt's rest added, in the order of the attempts. */
  function Cover(fills: seq<Fill>, attempts: seq<(string, Progress)>): seq<Fill> {
    if attempts == [] then fills
    else
      var n := |attempts| - 1;
      CoverOne(Cover(fills, attempts[..n]), attempts[n].0, attempts[n].1)
  }

  /** How many attempts, covered in turn, could not be. */
  function Uncoverable(fills: seq<Fill>, attempts: seq<(string, Progress)>): nat {
    if attempts == [] then 0
    else
      var n := |attempts| - 1;
      Uncoverable(fills, attempts[..n])
      + if RestOf(attempts[n].0, attempts[n].1, Cover(fills, attempts[..n])).Bad? then 1 else 0
  }

  const I64_MIN := -0x8000_0000_0000_0000

  /** A fill without a time comes before all that have one. */
  function When(f: Fill): int { if f.at.Some? then f.at.value else I64_MIN }

  function Line(f: Fill): int { f.ordinal }

  /** A group's fills with every attempt's rest, in order of time and, within one, of line. */
  function Final(raw: seq<Fill>, attempts: seq<(string, Progress)>): seq<Fill> {
    SortByBoth(Cover(raw, attempts), When, Line)
  }

  method Coverage(raw: seq<Fill>, attempts: seq<(string, Progress)>) returns (fills: seq<Fill>, malformed: nat)
    ensures fills == Final(raw, attempts) && malformed == Uncoverable(raw, attempts)
  {
    hide RestOf;
    fills, malformed := raw, 0;
    var i := 0;
    while i < |attempts|
      invariant 0 <= i <= |attempts|
      invariant fills == Cover(raw, attempts[..i]) && malformed == Uncoverable(raw, attempts[..i])
    {
      assert attempts[..i + 1][..i] == attempts[..i];
      var rest := RestOf(attempts[i].0, attempts[i].1, fills);
      match rest {
        case Enough =>
        case Bad => malformed := malformed + 1;
        case Add(fill) => fills := fills + [fill];
      }
      i := i + 1;
    }
    assert attempts[..i] == attempts;
    fills := SortByBoth(fills, When, Line);
  }

  /** No two attempts share an id by which one would claim the other's fills. */
  ghost predicate Distinct(attempts: seq<(string, Progress)>) {
    forall i, j :: 0 <= i < |attempts| && 0 <= j < |attempts| && i != j ==> Apart(attempts[i], attempts[j])
  }

  predicate Apart(x: (string, Progress), y: (string, Progress)) {
    && x.0 != y.0
    && (x.1.clientId.Some? ==> y.1.clientId != x.1.clientId)
    && (x.1.orderId.Some? ==> y.1.orderId != x.1.orderId)
  }

  /** Another attempt's coverage is not this one's. */
  lemma OtherCoverage(fills: seq<Fill>, x: (string, Progress), y: (string, Progress))
    requires Apart(x, y)
    ensures Covered(x.0, x.1, CoverOne(fills, y.0, y.1)) == Covered(x.0, x.1, fills)
  {
    var rest := RestOf(y.0, y.1, fills);
    if rest.Add? {
      assert !Covers(x.0, x.1, rest.fill);
      assert (fills + [rest.fill])[..|fills|] == fills;
    }
  }

  lemma {:induction false} Unclaimed(fills: seq<Fill>, attempts: seq<(string, Progress)>, x: (string, Progress))
    requires forall i :: 0 <= i < |attempts| ==> Apart(x, attempts[i])
    ensures Covered(x.0, x.1, Cover(fills, attempts)) == Covered(x.0, x.1, fills)
  {
    hide Covered;
    if attempts != [] {
      var n := |attempts| - 1;
      Unclaimed(fills, attempts[..n], x);
      OtherCoverage(Cover(fills, attempts[..n]), x, attempts[n]);
    }
  }

  /** An attempt's own coverage joins its fills. */
  lemma OwnCoverage(fills: seq<Fill>, attempt: string, p: Progress)
    ensures var rest := RestOf(attempt, p, fills);
      Covered(attempt, p, CoverOne(fills, attempt, p))
        == Covered(attempt, p, fills) + if rest.Add? then [rest.fill] else []
  {
    var rest := RestOf(attempt, p, fills);
    if rest.Add? {
      assert (fills + [rest.fill])[..|fills|] == fills;
    }
  }

  lemma SumsWithOne(fills: seq<Fill>, f: Fill)
    ensures Sum(fills + [f], Qty) == Sum(fills, Qty) + f.qty
    ensures SumKnown(fills + [f], Quote)
      == (var q := SumKnown(fills, Quote); if q.Some? && f.quote.Some? then Some(q.value + f.quote.value) else None)
  {
    assert (fills + [f])[..|fills|] == fills;
  }

  lemma RestDependsOnCovered(attempt: string, p: Progress, a: seq<Fill>, b: seq<Fill>)
    requires Covered(attempt, p, a) == Covered(attempt, p, b)
    ensures RestOf(attempt, p, a) == RestOf(attempt, p, b)
  {
  }

  /** An attempt's fills once every attempt is covered: its raw fills, and its own coverage. */
  lemma FinallyCovered(raw: seq<Fill>, attempts: seq<(string, Progress)>, k: nat)
    requires Distinct(attempts) && k < |attempts|
    ensures var x := attempts[k]; var rest := RestOf(x.0, x.1, raw);
      Covered(x.0, x.1, Cover(raw, attempts)) == Covered(x.0, x.1, raw) + if rest.Add? then [rest.fill] else []
    decreases |attempts|
  {
    hide Covered, RestOf;
    var n, x := |attempts| - 1, attempts[k];
    var before := Cover(raw, attempts[..n]);
    if k == n {
      Unclaimed(raw, attempts[..n], x);
      RestDependsOnCovered(x.0, x.1, before, raw);
      OwnCoverage(before, x.0, x.1);
    } else {
      FinallyCovered(raw, attempts[..n], k);
      OtherCoverage(before, x, attempts[n]);
    }
  }

  // ---------------------------------------------------------------- an attempt's rest

  function CoveredQty(attempt: string, p: Progress, fills: seq<Fill>): real { Sum(Covered(attempt, p, fills), Qty) }

  /** What a total leaves after the fills' known parts; nothing where the total or a part is not known. */
  ghost predicate Left(total: Option<real>, fills: seq<Fill>, field: Fill -> Option<real>, left: Option<real>) {
    var known := total.Some? && forall i :: 0 <= i < |fills| ==> field(fills[i]).Some?;
    && left.Some? == known
    && (known ==> left.value == total.value - Sum(fills, (f: Fill) => if field(f).Some? then field(f).value else 0.0))
  }

  ghost predicate Malformed(p: Progress, own: seq<Fill>) {
    p.side.None? || exists q :: Left(p.quote, own, Quote, Some(q)) && q <= 0.0
  }

  /**
   The rest is nothing once the fills reach the cumulative quantity; else it is malformed without a side or
   with a known quote left that is not positive; else it is one fill of all that is left.
   */
  lemma RestIs(attempt: string, p: Progress, fills: seq<Fill>)
    ensures var rest, own := RestOf(attempt, p, fills), Covered(attempt, p, fills);
      && (rest.Enough? <==> CoveredQty(attempt, p, fills) >= p.qty)
      && (rest.Bad? <==> CoveredQty(attempt, p, fills) < p.qty && Malformed(p, own))
      && (rest.Add? ==>
            var f := rest.fill;
            && f.venue == p.venue && Some(f.side) == p.side && f.qty == p.qty - CoveredQty(attempt, p, fills) > 0.0
            && Left(p.quote, own, Quote, f.quote) && Left(p.fee, own, Fee, f.fee)
            && f.at == p.at && f.ordinal == p.ordinal && f.attempt == attempt
            && f.clientId == p.clientId && f.orderId == p.orderId)
  {
    hide Covered, Sum, SumKnown, Left;
    var own := Covered(attempt, p, fills);
    LeftIs(p.quote, own, Quote);
    LeftIs(p.fee, own, Fee);
    var left := QuoteLeft(attempt, p, fills);
    forall q ensures Left(p.quote, own, Quote, Some(q)) <==> left == Some(q) { LeftOnce(p.quote, own, Quote, left, q); }
  }

  lemma LeftOnce(total: Option<real>, fills: seq<Fill>, field: Fill -> Option<real>, left: Option<real>, q: real)
    requires Left(total, fills, field, left)
    ensures Left(total, fills, field, Some(q)) <==> left == Some(q)
  {
  }

  lemma LeftIs(total: Option<real>, fills: seq<Fill>, field: Fill -> Option<real>)
    ensures Left(total, fills, field, Less(total, SumKnown(fills, field)))
  {
    SumKnownIs(fills, field);
  }

  lemma {:induction false} SumKnownIs(fills: seq<Fill>, field: Fill -> Option<real>)
    ensures SumKnown(fills, field).Some? <==> forall i :: 0 <= i < |fills| ==> field(fills[i]).Some?
    ensures SumKnown(fills, field).Some? ==>
      SumKnown(fills, field).value == Sum(fills, (f: Fill) => if field(f).Some? then field(f).value else 0.0)
  {
    if fills != [] {
      var init := fills[..|fills| - 1];
      SumKnownIs(init, field);
      assert forall i :: 0 <= i < |init| ==> init[i] == fills[i];
      assert fills == init + [fills[|fills| - 1]];
    }
  }

  // ---------------------------------------------------------------- the final order

  lemma {:induction false} CoveredFilters(attempt: string, p: Progress, fills: seq<Fill>, w: Fill -> real)
    ensures Sum(Covered(attempt, p, fills), w) == Sum(fills, Claimed(attempt, p, w))
  {
    if fills != [] {
      var init, f := fills[..|fills| - 1], fills[|fills| - 1];
      CoveredFilters(attempt, p, init, w);
      assert (Covered(attempt, p, init) + [f])[..|Covered(attempt, p, init)|] == Covered(attempt, p, init);
      assert Covered(attempt, p, init) + [] == Covered(attempt, p, init);
    }
  }

  /** A weight, on the attempt's fills only. */
  function Claimed(attempt: string, p: Progress, w: Fill -> real): Fill -> real {
    (f: Fill) => if Covers(attempt, p, f) then w(f) else 0.0
  }

  /** In whatever order the fills stand, an attempt's sum over them is the same. */
  lemma CoveredAnyOrder(attempt: string, p: Progress, a: seq<Fill>, b: seq<Fill>, w: Fill -> real)
    requires multiset(a) == multiset(b)
    ensures Sum(Covered(attempt, p, a), w) == Sum(Covered(attempt, p, b), w)
  {
    CoveredFilters(attempt, p, a, w);
    CoveredFilters(attempt, p, b, w);
    SumAnyOrder(a, b, Claimed(attempt, p, w));
  }

  function Unquoted(f: Fill): real { if f.quote.None? then 1.0 else 0.0 }

  function KnownQuote(f: Fill): real { Known(f.quote) }

  /** The sum of quotes is known when no fill lacks one. */
  lemma {:induction false} QuotesKnown(fills: seq<Fill>)
    ensures SumKnown(fills, Quote) == if Sum(fills, Unquoted) == 0.0 then Some(Sum(fills, KnownQuote)) else None
    ensures Sum(fills, Unquoted) >= 0.0
  {
    if fills != [] { QuotesKnown(fills[..|fills| - 1]); }
  }

  /** The final fills are those covered, in order of time and line, and in one place each attempt's as they were. */
  lemma FinalOrder(raw: seq<Fill>, attempts: seq<(string, Progress)>)
    ensures var r, c := Final(raw, attempts), Cover(raw, attempts);
      && SortedByBoth(r, When, Line) && multiset(r) == multiset(c)
      && forall t, n :: WithKey(WithKey(r, When, t), Line, n) == WithKey(WithKey(c, When, t), Line, n)
  {
    SortByBothIsStable(Cover(raw, attempts), When, Line);
  }

  /** The attempts whose rest over the raw fills is a malformed one. */
  function BadRests(raw: seq<Fill>, attempts: seq<(string, Progress)>): set<int> {
    set k | 0 <= k < |attempts| && RestOf(attempts[k].0, attempts[k].1, raw).Bad?
  }

  lemma BadRestsNext(raw: seq<Fill>, attempts: seq<(string, Progress)>)
    requires attempts != []
    ensures var n := |attempts| - 1;
      |BadRests(raw, attempts)|
        == |BadRests(raw, attempts[..n])| + if RestOf(attempts[n].0, attempts[n].1, raw).Bad? then 1 else 0
  {
    hide RestOf;
    var n := |attempts| - 1;
    var before := BadRests(raw, attempts[..n]);
    assert n !in before;
    assert BadRests(raw, attempts) == if RestOf(attempts[n].0, attempts[n].1, raw).Bad? then before + {n} else before;
  }

  /** With no ids shared, the attempts that could not be covered are those. */
  lemma {:induction false} UncoverableCounts(raw: seq<Fill>, attempts: seq<(string, Progress)>)
    requires Distinct(attempts)
    ensures Uncoverable(raw, attempts) == |BadRests(raw, attempts)|
  {
    hide RestOf, BadRests, Covered, Cover, Apart;
    if attempts == [] {
      NoBadRests(raw);
    } else {
      var n := |attempts| - 1;
      UncoverableCounts(raw, attempts[..n]);
      Unclaimed(raw, attempts[..n], attempts[n]);
      RestDependsOnCovered(attempts[n].0, attempts[n].1, Cover(raw, attempts[..n]), raw);
      BadRestsNext(raw, attempts);
    }
  }

  lemma NoBadRests(raw: seq<Fill>)
    ensures BadRests(raw, []) == {}
  {
  }

  /**
   With no ids shared, each attempt whose progress can be read ends with fills summing to the larger of
   its raw fills and its cumulative quantity, and, where coverage was added with every quote known, to its
   cumulative quote.
   */
  lemma CoverageSums(raw: seq<Fill>, attempts: seq<(string, Progress)>, k: nat)
    requires Distinct(attempts) && k < |attempts|
    ensures var x := attempts[k]; var own := Covered(x.0, x.1, Final(raw, attempts)); var rest := RestOf(x.0, x.1, raw);
      && (rest.Bad? ==> Sum(own, Qty) == Sum(Covered(x.0, x.1, raw), Qty))
      && (!rest.Bad? ==> Sum(own, Qty) == RMax(Sum(Covered(x.0, x.1, raw), Qty), x.1.qty))
      && (rest.Add? && rest.fill.quote.Some? ==> SumKnown(own, Quote) == x.1.quote)
  {
    hide Covered, Sum, SumKnown, Cover, Final;
    var x := attempts[k];
    FinallyCovered(raw, attempts, k);
    var rest := RestOf(x.0, x.1, raw);
    var own := Covered(x.0, x.1, raw);
    assert own + [] == own;
    if rest.Add? { SumsWithOne(own, rest.fill); }
    var unsorted, sorted := Cover(raw, attempts), Final(raw, attempts);
    FinalOrder(raw, attempts);
    CoveredAnyOrder(x.0, x.1, unsorted, sorted, Qty);
    CoveredAnyOrder(x.0, x.1, unsorted, sorted, Unquoted);
    CoveredAnyOrder(x.0, x.1, unsorted, sorted, KnownQuote);
    QuotesKnown(Covered(x.0, x.1, unsorted));
    QuotesKnown(Covered(x.0, x.1, sorted));
  }
}

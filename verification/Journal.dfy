/**
 The journal fold (LIGHTER_ASTER_BOT/src/live_report.rs): parsed rows gather, per obligation, the latest
 form of every fill and the largest cumulative progress of every attempt.
 */
module Journal {
  import opened Common
  import opened Economics

  /** A fill's identity: made of its order and trade ids, or, without any, of the line that reported it. */
  type Id = string

  const DIGITS := "0123456789"

  function Decimal(n: nat): string { (if n < 10 then "" else Decimal(n / 10)) + [DIGITS[n % 10]] }

  /** The identity an unidentified hedge of an obligation gets: the same string one with that trade id would have. */
  function LineId(logical: string, line: nat): Id { "legacy-hedge:" + logical + ":" + Decimal(line) }

  datatype Progress = Progress(
    venue: Venue, side: Option<Side>, qty: real, quote: Option<real>, fee: Option<real>, at: Option<int>, ordinal: nat,
    clientId: Option<string>, orderId: Option<string>, terminal: bool)

  datatype Entry =
    | FillRow(name: Option<string>, fill: Fill)
    | ProgressRow(attempt: string, progress: Progress)
    | UnidentifiedRow(attempt: string, lower: Option<real>)
    | Malformed

  /** A line: one of another market or kind, or one of an obligation. A `mono` of 0 means none. */
  datatype Row = Skipped | Row(market: string, logical: string, legacy: bool, mono: nat, entry: Entry)

  datatype Group = Group(
    fills: map<Id, Fill>, progress: map<string, Progress>, unidentified: map<string, Option<real>>,
    legacy: bool, firstMono: nat, lastMono: nat)

  const NOTHING := Group(map[], map[], map[], false, 0, 0)

  type Groups = map<(string, string), Group>

  function GroupOf(gs: Groups, key: (string, string)): Group { if key in gs then gs[key] else NOTHING }

  function IdOf(logical: string, name: Option<string>, index: nat): Id {
    if name.Some? then name.value else LineId(logical, index)
  }

  /** A fill keeps the place of its first report. */
  function PutFill(fills: map<Id, Fill>, id: Id, f: Fill, index: nat): map<Id, Fill> {
    fills[id := f.(ordinal := if id in fills then fills[id].ordinal else index)]
  }

  /** Progress only grows; a report of the same quantity refines it but keeps its time and place. */
  function PutProgress(progress: map<string, Progress>, attempt: string, p: Progress, index: nat)
    : map<string, Progress>
  {
    if attempt in progress && p.qty < progress[attempt].qty then progress
    else if attempt in progress && p.qty == progress[attempt].qty
    then progress[attempt := p.(at := progress[attempt].at, ordinal := progress[attempt].ordinal)]
    else progress[attempt := p.(ordinal := index)]
  }

  function Higher(x: Option<real>, y: Option<real>): Option<real> {
    if x.None? || y.None? then None else Some(RMax(x.value, y.value))
  }

  function PutLower(lowers: map<string, Option<real>>, attempt: string, lower: Option<real>)
    : map<string, Option<real>>
  {
    lowers[attempt := if attempt in lowers then Higher(lowers[attempt], lower) else lower]
  }

  function Timed(g: Group, mono: nat): Group {
    if mono == 0 then g
    else g.(firstMono := if g.firstMono == 0 then mono else Min(g.firstMono, mono), lastMono := Max(g.lastMono, mono))
  }

  function Stamped(g: Group, row: Row): Group
    requires row.Row?
  {
    Timed(g.(legacy := g.legacy || row.legacy), row.mono)
  }

  function Enter(g: Group, logical: string, entry: Entry, index: nat): Group {
    match entry
    case FillRow(name, fill) => g.(fills := PutFill(g.fills, IdOf(logical, name, index), fill, index))
    case ProgressRow(attempt, p) => g.(progress := PutProgress(g.progress, attempt, p, index))
    case UnidentifiedRow(attempt, lower) => g.(unidentified := PutLower(g.unidentified, attempt, lower))
    case Malformed => g
  }

  function Take(g: Group, row: Row, index: nat): Group
    requires row.Row?
  {
    Enter(Stamped(g, row), row.logical, row.entry, index)
  }

  function FoldRow(gs: Groups, row: Row, index: nat): Groups {
    if row.Skipped? then gs
    else gs[(row.market, row.logical) := Take(GroupOf(gs, (row.market, row.logical)), row, index)]
  }

  /** The groups after these rows, the first of which is line `start`. */
  function Fold(gs: Groups, rows: seq<Row>, start: nat): Groups {
    if rows == [] then gs
    else FoldRow(Fold(gs, rows[..|rows| - 1], start), rows[|rows| - 1], start + |rows| - 1)
  }

  method FoldJournal(rows: seq<Row>) returns (gs: Groups)
    ensures gs == Fold(map[], rows, 0)
  {
    hide Take;
    gs := map[];
    var index := 0;
    while index < |rows|
      invariant 0 <= index <= |rows|
      invariant gs == Fold(map[], rows[..index], 0)
    {
      assert rows[..index + 1][..index] == rows[..index];
      var row := rows[index];
      if row.Row? {
        var key := (row.market, row.logical);
        if key !in gs { gs := gs[key := NOTHING]; }
        gs := gs[key := Take(gs[key], row, index)];
      }
      index := index + 1;
    }
    assert rows[..index] == rows;
  }

  // ---------------------------------------------------------------- a journal read twice

  ghost predicate FillsLead(a: map<Id, Fill>, p: map<Id, Fill>) {
    forall id :: id in a ==> id in p && p[id].ordinal == a[id].ordinal
  }

  ghost predicate Grew(x: Progress, y: Progress) {
    x.qty <= y.qty && (x.qty == y.qty ==> x.at == y.at && x.ordinal == y.ordinal)
  }

  ghost predicate ProgressLeads(a: map<string, Progress>, p: map<string, Progress>) {
    forall t :: t in a ==> t in p && Grew(a[t], p[t])
  }

  ghost predicate Rose(x: Option<real>, y: Option<real>) { y.None? || (x.Some? && x.value <= y.value) }

  ghost predicate LowersLead(a: map<string, Option<real>>, p: map<string, Option<real>>) {
    forall t :: t in a ==> t in p && Rose(a[t], p[t])
  }

  /** `p` is a later state than `a`: fills keep their place, quantities and bounds only grow. */
  ghost predicate Leads(a: Group, p: Group) {
    && FillsLead(a.fills, p.fills) && ProgressLeads(a.progress, p.progress)
    && LowersLead(a.unidentified, p.unidentified)
    && (a.legacy ==> p.legacy) && a.lastMono <= p.lastMono
    && (a.firstMono != 0 ==> 0 < p.firstMono <= a.firstMono)
  }

  ghost predicate FillsLock(a: map<Id, Fill>, b: map<Id, Fill>, p: map<Id, Fill>) {
    b.Keys == p.Keys && forall id :: id in p ==> b[id] == if id in a then a[id] else p[id]
  }

  ghost predicate ProgressLock(a: map<string, Progress>, b: map<string, Progress>, p: map<string, Progress>) {
    b.Keys == p.Keys && forall t :: t in p ==> b[t] == if t in a && a[t].qty == p[t].qty then a[t] else p[t]
  }

  /** Midway through the second reading, fills aside: what the first had settled by then, else the final state. */
  ghost predicate RestLock(a: Group, b: Group, p: Group) {
    ProgressLock(a.progress, b.progress, p.progress) && b == p.(fills := b.fills, progress := b.progress)
  }

  /** And the fills too. */
  ghost predicate Lock(a: Group, b: Group, p: Group) { FillsLock(a.fills, b.fills, p.fills) && RestLock(a, b, p) }

  predicate Identified(row: Row) { row.Row? && row.entry.FillRow? ==> row.entry.name.Some? }

  lemma PutFillLeads(a: map<Id, Fill>, id: Id, f: Fill, i: nat)
    ensures FillsLead(a, PutFill(a, id, f, i)) && id in PutFill(a, id, f, i)
  {
  }

  lemma PutProgressLeads(a: map<string, Progress>, t: string, q: Progress, i: nat)
    ensures ProgressLeads(a, PutProgress(a, t, q, i)) && t in PutProgress(a, t, q, i)
      && q.qty <= PutProgress(a, t, q, i)[t].qty
  {
  }

  lemma PutLowerLeads(a: map<string, Option<real>>, t: string, lower: Option<real>)
    ensures LowersLead(a, PutLower(a, t, lower)) && t in PutLower(a, t, lower) && Rose(lower, PutLower(a, t, lower)[t])
  {
  }

  lemma SelfLeads(a: Group)
    ensures Leads(a, a)
  {
  }

  lemma TakeLeads(a: Group, row: Row, index: nat)
    requires row.Row?
    ensures Leads(a, Take(a, row, index))
  {
    hide FillsLead, ProgressLeads, LowersLead, PutFill, PutProgress, PutLower;
    SelfParts(a);
    match row.entry
    case FillRow(name, fill) => PutFillLeads(a.fills, IdOf(row.logical, name, index), fill, index);
    case ProgressRow(attempt, q) => PutProgressLeads(a.progress, attempt, q, index);
    case UnidentifiedRow(attempt, lower) => PutLowerLeads(a.unidentified, attempt, lower);
    case Malformed =>
  }

  lemma SelfParts(a: Group)
    ensures FillsLead(a.fills, a.fills) && ProgressLeads(a.progress, a.progress)
      && LowersLead(a.unidentified, a.unidentified)
  {
  }

  lemma LeadsOn(a: Group, b: Group, c: Group)
    requires Leads(a, b) && Leads(b, c)
    ensures Leads(a, c)
  {
  }

  lemma LockFill(a: map<Id, Fill>, b: map<Id, Fill>, p: map<Id, Fill>, id: Id, f: Fill, i: nat, j: nat)
    requires FillsLock(a, b, p) && FillsLead(PutFill(a, id, f, i), p)
    ensures FillsLock(PutFill(a, id, f, i), PutFill(b, id, f, j), p)
  {
    assert id in PutFill(a, id, f, i) && id in p;
  }

  lemma LockProgress(a: map<string, Progress>, b: map<string, Progress>, p: map<string, Progress>, t: string,
          q: Progress, i: nat, j: nat)
    requires ProgressLock(a, b, p) && ProgressLeads(PutProgress(a, t, q, i), p)
    ensures ProgressLock(PutProgress(a, t, q, i), PutProgress(b, t, q, j), p)
  {
    PutProgressLeads(a, t, q, i);
    assert Grew(PutProgress(a, t, q, i)[t], p[t]);
  }

  lemma LockLower(a: map<string, Option<real>>, p: map<string, Option<real>>, t: string, lower: Option<real>)
    requires LowersLead(PutLower(a, t, lower), p)
    ensures PutLower(p, t, lower) == p
  {
    PutLowerLeads(a, t, lower);
    assert t in p && Rose(lower, p[t]);
  }

  lemma StampsOnly(g: Group, row: Row)
    requires row.Row?
    ensures var r := Stamped(g, row); r == g.(legacy := r.legacy, firstMono := r.firstMono, lastMono := r.lastMono)
  {
  }

  /** A stamp already counted changes nothing. */
  lemma StampedBefore(a: Group, b: Group, p: Group, row: Row, i: nat)
    requires row.Row? && Leads(Take(a, row, i), p)
    requires b.legacy == p.legacy && b.firstMono == p.firstMono && b.lastMono == p.lastMono
    ensures Stamped(b, row) == b
  {
    hide FillsLead, ProgressLeads, LowersLead, PutFill, PutProgress, PutLower;
  }

  /** One row of the second reading follows the same row of the first, all but an unidentified fill. */
  lemma LockStep(a: Group, b: Group, p: Group, row: Row, i: nat, j: nat)
    requires row.Row? && RestLock(a, b, p) && Leads(Take(a, row, i), p)
    ensures RestLock(Take(a, row, i), Take(b, row, j), p)
    ensures Identified(row) && Lock(a, b, p) ==> Lock(Take(a, row, i), Take(b, row, j), p)
  {
    hide FillsLead, ProgressLeads, LowersLead, PutFill, PutProgress, PutLower, FillsLock, ProgressLock, Stamped;
    StampedBefore(a, b, p, row, i);
    StampsOnly(a, row);
    match row.entry
    case FillRow(name, fill) =>
      if name.Some? && Lock(a, b, p) { LockFill(a.fills, b.fills, p.fills, name.value, fill, i, j); }
    case ProgressRow(attempt, q) => LockProgress(a.progress, b.progress, p.progress, attempt, q, i, j);
    case UnidentifiedRow(attempt, lower) => LockLower(a.unidentified, p.unidentified, attempt, lower);
    case Malformed =>
  }

  ghost predicate LeadsAll(A: Groups, P: Groups) { forall k :: k in A ==> k in P && Leads(A[k], P[k]) }

  ghost predicate LockAll(A: Groups, B: Groups, P: Groups, identified: bool) {
    B.Keys == P.Keys && forall k :: k in P ==>
      RestLock(GroupOf(A, k), B[k], P[k]) && (identified ==> Lock(GroupOf(A, k), B[k], P[k]))
  }

  predicate AllIdentified(rows: seq<Row>) { forall i :: 0 <= i < |rows| ==> Identified(rows[i]) }

  lemma {:induction false} FoldLeads(A: Groups, rows: seq<Row>, start: nat)
    ensures LeadsAll(A, Fold(A, rows, start))
  {
    hide Take, Leads;
    if rows == [] {
      forall k | k in A ensures Leads(A[k], A[k]) { SelfLeads(A[k]); }
    } else {
      FoldLeads(A, rows[..|rows| - 1], start);
      var B, row := Fold(A, rows[..|rows| - 1], start), rows[|rows| - 1];
      var C := Fold(A, rows, start);
      forall k | k in A ensures k in C && Leads(A[k], C[k]) {
        if row.Row? && k == (row.market, row.logical) {
          TakeLeads(B[k], row, start + |rows| - 1);
          LeadsOn(A[k], B[k], C[k]);
        }
      }
    }
  }

  lemma {:induction false} FoldTail(gs: Groups, a: seq<Row>, b: seq<Row>, start: nat)
    ensures Fold(gs, a + b, start) == Fold(Fold(gs, a, start), b, start + |a|)
  {
    if b == [] {
      assert a + b == a;
    } else {
      FoldTail(gs, a, b[..|b| - 1], start);
      assert (a + b)[..|a + b| - 1] == a + b[..|b| - 1];
    }
  }

  /** The second reading keeps in lock with the first. */
  lemma {:induction false} SecondReading(rows: seq<Row>, k: nat)
    requires k <= |rows|
    ensures var P := Fold(map[], rows, 0);
      LockAll(Fold(map[], rows[..k], 0), Fold(P, rows[..k], |rows|), P, AllIdentified(rows))
  {
    hide Take, Leads, Lock, RestLock;
    var P := Fold(map[], rows, 0);
    if k == 0 {
      forall key | key in P ensures Lock(NOTHING, P[key], P[key]) && RestLock(NOTHING, P[key], P[key]) {
        LockStart(P[key]);
      }
    } else {
      SecondReading(rows, k - 1);
      var A, B, row := Fold(map[], rows[..k - 1], 0), Fold(P, rows[..k - 1], |rows|), rows[k - 1];
      assert rows[..k][..k - 1] == rows[..k - 1];
      assert rows == rows[..k] + rows[k..];
      FoldTail(map[], rows[..k], rows[k..], 0);
      FoldLeads(Fold(map[], rows[..k], 0), rows[k..], k);
      if row.Row? {
        var key := (row.market, row.logical);
        var A' := Fold(map[], rows[..k], 0);
        assert A'[key] == Take(GroupOf(A, key), row, k - 1);
        LockStep(GroupOf(A, key), GroupOf(B, key), P[key], row, k - 1, |rows| + k - 1);
      }
    }
  }

  lemma LockStart(p: Group)
    ensures Lock(NOTHING, p, p) && RestLock(NOTHING, p, p)
  {
  }

  lemma LockEnd(p: Group, b: Group)
    requires RestLock(p, b, p)
    ensures b == p.(fills := b.fills) && (Lock(p, b, p) ==> b == p)
  {
    assert b.progress == p.progress;
    assert Lock(p, b, p) ==> b.fills == p.fills;
  }

  /** A journal of identified rows appended to itself gives the same groups. */
  lemma ReadTwice(rows: seq<Row>)
    requires AllIdentified(rows)
    ensures Fold(map[], rows + rows, 0) == Fold(map[], rows, 0)
  {
    hide Fold, Lock, RestLock;
    FoldTail(map[], rows, rows, 0);
    SecondReading(rows, |rows|);
    assert rows[..|rows|] == rows;
    var P, B := Fold(map[], rows, 0), Fold(Fold(map[], rows, 0), rows, |rows|);
    forall k | k in P ensures B[k] == P[k] {
      assert Lock(GroupOf(P, k), B[k], P[k]);
      LockEnd(P[k], B[k]);
    }
    assert B == P;
  }

  lemma DigitsDiffer(i: nat, j: nat)
    requires i < 10 && j < 10 && DIGITS[i] == DIGITS[j]
    ensures i == j
  {
  }

  lemma {:induction false} DecimalsDiffer(a: nat, b: nat)
    requires Decimal(a) == Decimal(b)
    ensures a == b
  {
    var x, y := Decimal(a), Decimal(b);
    assert x[|x| - 1] == y[|y| - 1] && x[..|x| - 1] == y[..|y| - 1];
    assert DIGITS[a % 10] == DIGITS[b % 10];
    DigitsDiffer(a % 10, b % 10);
    assert x[..|x| - 1] == if a < 10 then "" else Decimal(a / 10);
    assert y[..|y| - 1] == if b < 10 then "" else Decimal(b / 10);
    if a >= 10 && b >= 10 { DecimalsDiffer(a / 10, b / 10); }
  }

  lemma LinesDiffer(logical: string, a: nat, b: nat)
    requires LineId(logical, a) == LineId(logical, b)
    ensures a == b
  {
    hide Decimal;
    var prefix := "legacy-hedge:" + logical + ":";
    assert (prefix + Decimal(a))[|prefix|..] == Decimal(a) && (prefix + Decimal(b))[|prefix|..] == Decimal(b);
    DecimalsDiffer(a, b);
  }

  /** Does this row report, under ids of its own, a fill of that obligation by that identity? */
  predicate Reports(row: Row, key: (string, string), id: Id) {
    row.Row? && (row.market, row.logical) == key && row.entry.FillRow? && row.entry.name == Some(id)
  }

  /** An identity numbered beyond a journal's lines is in its groups only if a row reports it. */
  lemma {:induction false} LinesBelow(gs: Groups, rows: seq<Row>, start: nat, key: (string, string), line: nat)
    requires start + |rows| <= line && LineId(key.1, line) !in GroupOf(gs, key).fills
    requires forall i :: 0 <= i < |rows| ==> !Reports(rows[i], key, LineId(key.1, line))
    ensures LineId(key.1, line) !in GroupOf(Fold(gs, rows, start), key).fills
  {
    hide Take, LineId;
    if rows != [] {
      LinesBelow(gs, rows[..|rows| - 1], start, key, line);
      var row := rows[|rows| - 1];
      if row.Row? && (row.market, row.logical) == key {
        TakesOneLine(GroupOf(Fold(gs, rows[..|rows| - 1], start), key), row, start + |rows| - 1, line);
      }
    }
  }

  lemma TakesOneLine(g: Group, row: Row, index: nat, line: nat)
    requires row.Row? && index < line && LineId(row.logical, line) !in g.fills
    requires !Reports(row, (row.market, row.logical), LineId(row.logical, line))
    ensures LineId(row.logical, line) !in Take(g, row, index).fills
  {
    hide PutProgress, PutLower, LineId;
    StampsOnly(g, row);
    if LineId(row.logical, index) == LineId(row.logical, line) { LinesDiffer(row.logical, index, line); }
  }

  /** The identity the second reading gives an unidentified fill is one that a row of its own obligation reports. */
  predicate Collides(rows: seq<Row>, i: nat)
    requires i < |rows| && rows[i].Row?
  {
    var key, id := (rows[i].market, rows[i].logical), LineId(rows[i].logical, |rows| + i);
    exists j :: 0 <= j < |rows| && Reports(rows[j], key, id)
  }

  /** A fill without an identity is another fill when read again, unless it then takes one a row reports. */
  lemma ReadTwiceOnly(rows: seq<Row>, i: nat)
    requires Fold(map[], rows + rows, 0) == Fold(map[], rows, 0)
    requires i < |rows| && !Identified(rows[i])
    ensures Collides(rows, i)
  {
    hide Take, Fold, LineId, Reports;
    var key, line := (rows[i].market, rows[i].logical), |rows| + i;
    AddsLine(rows, i);
    if !Collides(rows, i) { LinesBelow(map[], rows, 0, key, line); }
  }

  /** With no such collision, exactly the journals of identified rows are the same read twice. */
  lemma ReadTwiceApart(rows: seq<Row>)
    requires forall i :: 0 <= i < |rows| && !Identified(rows[i]) ==> !Collides(rows, i)
    ensures Fold(map[], rows + rows, 0) == Fold(map[], rows, 0) <==> AllIdentified(rows)
  {
    hide Fold, Collides;
    if AllIdentified(rows) {
      ReadTwice(rows);
    } else if Fold(map[], rows + rows, 0) == Fold(map[], rows, 0) {
      var i :| 0 <= i < |rows| && !Identified(rows[i]);
      ReadTwiceOnly(rows, i);
    }
  }

  /** A hedge without ids is two fills of its obligation once the journal is read twice. */
  lemma UnidentifiedDoubles(market: string, logical: string, f: Fill) returns (rows: seq<Row>)
    ensures |rows| == 1 && !Identified(rows[0]) && rows[0].entry.fill == f
    ensures Fold(map[], rows + rows, 0) != Fold(map[], rows, 0)
  {
    rows := [Row(market, logical, false, 0, FillRow(None, f))];
    ReadTwiceApart(rows);
    assert !Identified(rows[0]);
  }

  // ---------------------------------------------------------------- read twice, exactly

  /** Does this row, on this line, report that fill of the obligation? */
  predicate ReportsOn(row: Row, line: nat, key: (string, string), id: Id) {
    row.Row? && (row.market, row.logical) == key && row.entry.FillRow? && IdOf(row.logical, row.entry.name, line) == id
  }

  /** The last row to report it, the first of them on line `start`. */
  function Reporter(rows: seq<Row>, start: nat, key: (string, string), id: Id): (k: Option<nat>)
    ensures k.Some? ==> k.value < |rows| && ReportsOn(rows[k.value], start + k.value, key, id)
    ensures k.None? ==> forall i :: 0 <= i < |rows| ==> !ReportsOn(rows[i], start + i, key, id)
  {
    if rows == [] then None
    else
      var n := |rows| - 1;
      if ReportsOn(rows[n], start + n, key, id) then Some(n) else Reporter(rows[..n], start, key, id)
  }

  /** The same fill, but for its place. */
  predicate SameFill(f: Fill, g: Fill) { f == g.(ordinal := f.ordinal) }

  /** The fill kept under an identity: the one it had, or the last one reported, in the place of the first. */
  ghost predicate Kept(g: Group, r: Group, rows: seq<Row>, start: nat, key: (string, string), id: Id) {
    match Reporter(rows, start, key, id)
    case None => (id in r.fills <==> id in g.fills) && (id in g.fills ==> r.fills[id] == g.fills[id])
    case Some(k) =>
      && id in r.fills && SameFill(r.fills[id], rows[k].entry.fill)
      && (id in g.fills ==> r.fills[id].ordinal == g.fills[id].ordinal)
  }

  lemma {:induction false} FoldKeeps(gs: Groups, rows: seq<Row>, start: nat, key: (string, string), id: Id)
    ensures Kept(GroupOf(gs, key), GroupOf(Fold(gs, rows, start), key), rows, start, key, id)
  {
    hide Take, IdOf;
    if rows != [] {
      var n := |rows| - 1;
      FoldKeeps(gs, rows[..n], start, key, id);
      var row, g := rows[n], GroupOf(Fold(gs, rows[..n], start), key);
      if row.Row? && (row.market, row.logical) == key { TakeFills(g, row, start + n, id); }
    }
  }

  lemma TakeFills(g: Group, row: Row, line: nat, id: Id)
    requires row.Row?
    ensures var r, key := Take(g, row, line), (row.market, row.logical);
      && (!ReportsOn(row, line, key, id) ==>
            && (id in r.fills <==> id in g.fills)
            && (id in g.fills ==> r.fills[id] == g.fills[id]))
      && (ReportsOn(row, line, key, id) ==>
            && id in r.fills && SameFill(r.fills[id], row.entry.fill)
            && (id in g.fills ==> r.fills[id].ordinal == g.fills[id].ordinal))
  {
    hide PutProgress, PutLower, IdOf;
    StampsOnly(g, row);
  }

  /**
   Row i read again reports an identity whose last report of that reading is, but for its place, the last
   one of the first reading: for a row with an identity of its own unless a line number takes it too.
   */
  predicate Repeats(rows: seq<Row>, i: nat)
    requires i < |rows| && rows[i].Row? && rows[i].entry.FillRow?
  {
    var key, id := (rows[i].market, rows[i].logical), IdOf(rows[i].logical, rows[i].entry.name, |rows| + i);
    var first, again := Reporter(rows, 0, key, id), Reporter(rows, |rows|, key, id);
    first.Some? && again.Some? && SameFill(rows[first.value].entry.fill, rows[again.value].entry.fill)
  }

  predicate AllRepeat(rows: seq<Row>) {
    forall i :: 0 <= i < |rows| && rows[i].Row? && rows[i].entry.FillRow? ==> Repeats(rows, i)
  }

  /** Exactly when a journal appended to itself gives the same groups, collisions and all. */
  lemma ReadTwiceExactly(rows: seq<Row>)
    ensures Fold(map[], rows + rows, 0) == Fold(map[], rows, 0) <==> AllRepeat(rows)
  {
    hide Fold, Repeats, RestLock, Lock;
    FoldTail(map[], rows, rows, 0);
    SecondReading(rows, |rows|);
    assert rows[..|rows|] == rows;
    var P, B := Fold(map[], rows, 0), Fold(Fold(map[], rows, 0), rows, |rows|);
    if AllRepeat(rows) {
      forall key | key in P ensures B[key] == P[key] {
        assert RestLock(GroupOf(P, key), B[key], P[key]);
        LockEnd(P[key], B[key]);
        forall id
          ensures (id in B[key].fills <==> id in P[key].fills)
            && (id in P[key].fills ==> B[key].fills[id] == P[key].fills[id])
        {
          RepeatedFill(rows, key, id);
        }
        assert B[key].fills == P[key].fills;
      }
      assert B == P;
    }
    if B == P {
      forall i | 0 <= i < |rows| && rows[i].Row? && rows[i].entry.FillRow? ensures Repeats(rows, i) {
        FillRepeated(rows, i);
      }
    }
  }

  /** Under repeating reports the second reading leaves every fill as it was. */
  lemma RepeatedFill(rows: seq<Row>, key: (string, string), id: Id)
    requires AllRepeat(rows)
    ensures var P := Fold(map[], rows, 0); var p, b := GroupOf(P, key), GroupOf(Fold(P, rows, |rows|), key);
      (id in b.fills <==> id in p.fills) && (id in p.fills ==> b.fills[id] == p.fills[id])
  {
    hide Fold, Reporter, ReportsOn, SameFill, AllRepeat;
    var P := Fold(map[], rows, 0);
    FoldKeeps(map[], rows, 0, key, id);
    FoldKeeps(P, rows, |rows|, key, id);
    var p, b := GroupOf(P, key), GroupOf(Fold(P, rows, |rows|), key);
    var again := Reporter(rows, |rows|, key, id);
    if again.Some? {
      RepeatsAt(rows, again.value, key, id);
      var first := Reporter(rows, 0, key, id);
      SameThrough(b.fills[id], rows[again.value].entry.fill, rows[first.value].entry.fill, p.fills[id]);
    }
  }

  lemma RepeatsAt(rows: seq<Row>, k: nat, key: (string, string), id: Id)
    requires AllRepeat(rows) && k < |rows| && ReportsOn(rows[k], |rows| + k, key, id)
    ensures var first, again := Reporter(rows, 0, key, id), Reporter(rows, |rows|, key, id);
      && first.Some? && again.Some? && rows[first.value].Row? && rows[first.value].entry.FillRow?
      && rows[again.value].Row? && rows[again.value].entry.FillRow?
      && SameFill(rows[first.value].entry.fill, rows[again.value].entry.fill)
  {
    hide Reporter, IdOf, SameFill;
    assert Repeats(rows, k);
  }

  lemma SameThrough(b: Fill, again: Fill, first: Fill, p: Fill)
    requires SameFill(b, again) && SameFill(first, again) && SameFill(p, first) && b.ordinal == p.ordinal
    ensures b == p
  {
  }

  /** And where it does, row i's report was repeated. */
  lemma FillRepeated(rows: seq<Row>, i: nat)
    requires i < |rows| && rows[i].Row? && rows[i].entry.FillRow?
    requires var P := Fold(map[], rows, 0); Fold(P, rows, |rows|) == P
    ensures Repeats(rows, i)
  {
    hide Fold, Reporter, IdOf;
    var key, id := (rows[i].market, rows[i].logical), IdOf(rows[i].logical, rows[i].entry.name, |rows| + i);
    FoldKeeps(map[], rows, 0, key, id);
    FoldKeeps(Fold(map[], rows, 0), rows, |rows|, key, id);
    assert ReportsOn(rows[i], |rows| + i, key, id);
  }

  /** A collision: of two hedges the second has the trade id "2", which is the line the first is on when read again. */
  lemma CollisionHidesLine(market: string, logical: string, f: Fill, g: Fill) returns (rows: seq<Row>)
    ensures |rows| == 2 && !Identified(rows[0]) && rows[0].entry.fill == f && Collides(rows, 0)
    ensures Fold(map[], rows + rows, 0) == Fold(map[], rows, 0)
  {
    hide LineId;
    var two := LineId(logical, 2);
    var row0 := Row(market, logical, false, 0, FillRow(None, f));
    var row1 := Row(market, logical, false, 0, FillRow(Some(two), g));
    rows := [row0, row1];
    assert Reports(rows[1], (market, logical), two);
    var A := Fold(map[], rows, 0);
    FoldTail(map[], [row0], [row1], 0);
    assert rows == [row0] + [row1];
    FoldOne(map[], row0, 0);
    var A0 := FoldRow(map[], row0, 0);
    FoldOne(A0, row1, 1);
    FoldTail(map[], rows, rows, 0);
    FoldTail(A, [row0], [row1], 2);
    FoldOne(A, row0, 2);
    var B0 := FoldRow(A, row0, 2);
    FoldOne(B0, row1, 3);
    TwoHedges(market, logical, f, g, row0, row1);
  }

  lemma TwoHedges(market: string, logical: string, f: Fill, g: Fill, row0: Row, row1: Row)
    requires row0 == Row(market, logical, false, 0, FillRow(None, f))
    requires row1 == Row(market, logical, false, 0, FillRow(Some(LineId(logical, 2)), g))
    ensures var A := FoldRow(FoldRow(map[], row0, 0), row1, 1); FoldRow(FoldRow(A, row0, 2), row1, 3) == A
  {
    var A := FoldRow(FoldRow(map[], row0, 0), row1, 1);
    if LineId(logical, 0) == LineId(logical, 2) { LinesDiffer(logical, 0, 2); }
    var B := FoldRow(FoldRow(A, row0, 2), row1, 3);
    var key := (market, logical);
    assert B[key].fills == A[key].fills;
    assert B == A;
  }

  lemma AddsLine(rows: seq<Row>, i: nat)
    requires i < |rows| && !Identified(rows[i])
    ensures var key := (rows[i].market, rows[i].logical);
      LineId(key.1, |rows| + i) in GroupOf(Fold(map[], rows + rows, 0), key).fills
  {
    hide Leads, Fold, LineId;
    var before, rest := rows + rows[..i], rows[i + 1..];
    assert rows + rows == (before + [rows[i]]) + rest;
    FoldTail(map[], before + [rows[i]], rest, 0);
    FoldTail(map[], before, [rows[i]], 0);
    FoldOne(Fold(map[], before, 0), rows[i], |rows| + i);
    var A := FoldRow(Fold(map[], before, 0), rows[i], |rows| + i);
    var key := (rows[i].market, rows[i].logical);
    assert LineId(key.1, |rows| + i) in A[key].fills;
    FoldLeads(A, rest, |rows| + i + 1);
    KeepsFill(A[key], Fold(A, rest, |rows| + i + 1)[key], LineId(key.1, |rows| + i));
  }

  lemma FoldOne(gs: Groups, row: Row, index: nat)
    ensures Fold(gs, [row], index) == FoldRow(gs, row, index)
  {
    assert [row][..0] == [];
  }

  lemma KeepsFill(a: Group, p: Group, id: Id)
    requires Leads(a, p) && id in a.fills
    ensures id in p.fills
  {
  }
}

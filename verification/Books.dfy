/**
 The bounded order book (LIGHTER_ASTER_BOT/src/book.rs): rows are inserted in book order by binary search,
 duplicate prices add up, and only the best twenty levels are kept.
 */
module Books {
  const MAX_BOOK_LEVELS := 20

  datatype Level = Level(px: real, qty: real)

  /** Ahead in book order: higher for bids, lower for asks. */
  predicate Ahead(descending: bool, x: real, y: real) { if descending then x > y else x < y }

  ghost predicate Ordered(descending: bool, side: seq<Level>) {
    forall i, j :: 0 <= i < j < |side| ==> Ahead(descending, side[i].px, side[j].px)
  }

  predicate Positive(row: Level) { row.px > 0.0 && row.qty > 0.0 }

  /** What the rows bring at one price. */
  function QtyAt(rows: seq<Level>, px: real): real {
    if rows == [] then 0.0
    else
      var row := rows[|rows| - 1];
      QtyAt(rows[..|rows| - 1], px) + if row.px == px > 0.0 && row.qty > 0.0 then row.qty else 0.0
  }

  ghost predicate Has(side: seq<Level>, px: real) { exists i :: 0 <= i < |side| && side[i].px == px }

  /**
   The best twenty levels of the full book of these rows: every level carries all that the rows bring at
   its price, and a price left out stands behind twenty others.
   */
  ghost predicate Best(descending: bool, rows: seq<Level>, side: seq<Level>) {
    && Ordered(descending, side) && |side| <= MAX_BOOK_LEVELS
    && (forall i :: 0 <= i < |side| ==> side[i].qty == QtyAt(rows, side[i].px) > 0.0 && side[i].px > 0.0)
    && (forall px :: QtyAt(rows, px) > 0.0 && !Has(side, px) ==>
          |side| == MAX_BOOK_LEVELS && Ahead(descending, side[MAX_BOOK_LEVELS - 1].px, px))
  }

  lemma {:induction false} QtyAtLeast(rows: seq<Level>, px: real)
    ensures QtyAt(rows, px) >= 0.0
    ensures px <= 0.0 ==> QtyAt(rows, px) == 0.0
  {
    if rows != [] { QtyAtLeast(rows[..|rows| - 1], px); }
  }

  /** Nothing is at a price that is neither on the side nor behind a full one. */
  lemma NewPrice(descending: bool, rows: seq<Level>, side: seq<Level>, px: real)
    requires Best(descending, rows, side) && !Has(side, px)
    requires |side| < MAX_BOOK_LEVELS || !Ahead(descending, side[MAX_BOOK_LEVELS - 1].px, px)
    ensures QtyAt(rows, px) == 0.0
  {
    QtyAtLeast(rows, px);
  }

  /** Behind every level before `pos`, ahead of the others. */
  ghost predicate Between(descending: bool, side: seq<Level>, pos: nat, px: real) {
    && pos <= |side| && (forall i :: 0 <= i < pos ==> Ahead(descending, side[i].px, px))
    && (forall i :: pos <= i < |side| ==> Ahead(descending, px, side[i].px))
  }

  /** Where a price stands: at an existing level, or between two. */
  method Locate(descending: bool, side: seq<Level>, px: real) returns (found: bool, pos: nat)
    requires Ordered(descending, side)
    ensures found ==> pos < |side| && side[pos].px == px
    ensures !found ==> pos <= |side| && !Has(side, px)
    ensures !found ==> Between(descending, side, pos, px)
  {
    var lo, hi := 0, |side|;
    while lo < hi
      invariant 0 <= lo <= hi <= |side|
      invariant forall i :: 0 <= i < lo ==> Ahead(descending, side[i].px, px)
      invariant forall i :: hi <= i < |side| ==> Ahead(descending, px, side[i].px)
    {
      var mid := (lo + hi) / 2;
      if side[mid].px == px {
        return true, mid;
      } else if Ahead(descending, side[mid].px, px) {
        lo := mid + 1;
      } else {
        hi := mid;
      }
    }
    found, pos := false, lo;
  }

  function InsertAt(side: seq<Level>, pos: nat, l: Level): seq<Level>
    requires pos <= |side|
  {
    side[..pos] + [l] + side[pos..]
  }

  lemma RowAdds(rows: seq<Level>, row: Level, px: real)
    ensures QtyAt(rows + [row], px) == QtyAt(rows, px) + if row.px == px > 0.0 && row.qty > 0.0 then row.qty else 0.0
  {
    assert (rows + [row])[..|rows|] == rows;
  }

  lemma SamePrices(side: seq<Level>, k: nat, l: Level, px: real)
    requires k < |side| && l.px == side[k].px
    ensures Has(side, px) ==> Has(side[k := l], px)
  {
    if Has(side, px) {
      var i :| 0 <= i < |side| && side[i].px == px;
      assert side[k := l][i].px == px;
    }
  }

  /** The row's price is already there: its quantity joins the level. */
  lemma JoinKeeps(descending: bool, rows: seq<Level>, side: seq<Level>, row: Level, k: nat)
    requires Best(descending, rows, side) && Positive(row) && k < |side| && side[k].px == row.px
    ensures Best(descending, rows + [row], side[k := Level(row.px, side[k].qty + row.qty)])
  {
    hide QtyAt;
    var after := side[k := Level(row.px, side[k].qty + row.qty)];
    forall i | 0 <= i < |after| ensures after[i].qty == QtyAt(rows + [row], after[i].px) > 0.0 && after[i].px > 0.0 {
      JoinLevel(descending, rows, side, row, k, i);
    }
    assert after[k].px == row.px;
    hide Ordered;
    assert Ordered(descending, after) by { JoinOrdered(descending, side, row, k); }
    assert Has(after, row.px);
    forall px | QtyAt(rows + [row], px) > 0.0 && !Has(after, px)
      ensures |after| == MAX_BOOK_LEVELS && Ahead(descending, after[MAX_BOOK_LEVELS - 1].px, px)
    {
      RowAdds(rows, row, px);
      SamePrices(side, k, after[k], px);
    }
  }

  lemma JoinLevel(descending: bool, rows: seq<Level>, side: seq<Level>, row: Level, k: nat, i: nat)
    requires Ordered(descending, side) && Positive(row) && k < |side| && side[k].px == row.px && i < |side|
    requires side[i].qty == QtyAt(rows, side[i].px) > 0.0 && side[i].px > 0.0
    ensures var after := side[k := Level(row.px, side[k].qty + row.qty)];
      after[i].qty == QtyAt(rows + [row], after[i].px) > 0.0 && after[i].px > 0.0
  {
    hide QtyAt;
    RowAdds(rows, row, side[i].px);
    if i < k { assert Ahead(descending, side[i].px, side[k].px); }
    if i > k { assert Ahead(descending, side[k].px, side[i].px); }
  }

  lemma JoinOrdered(descending: bool, side: seq<Level>, row: Level, k: nat)
    requires Ordered(descending, side) && k < |side| && side[k].px == row.px
    ensures Ordered(descending, side[k := Level(row.px, side[k].qty + row.qty)])
  {
  }

  lemma InsertOrdered(descending: bool, kept: seq<Level>, row: Level, pos: nat)
    requires Ordered(descending, kept) && Between(descending, kept, pos, row.px)
    ensures Ordered(descending, InsertAt(kept, pos, row))
  {
  }

  /** Every level of the new side is the row or was on the old. */
  lemma InsertLevels(rows: seq<Level>, kept: seq<Level>, row: Level, pos: nat)
    requires pos <= |kept| && Positive(row) && QtyAt(rows, row.px) == 0.0 && !Has(kept, row.px)
    requires forall i :: 0 <= i < |kept| ==> kept[i].qty == QtyAt(rows, kept[i].px) > 0.0 && kept[i].px > 0.0
    ensures var after := InsertAt(kept, pos, row);
      forall i :: 0 <= i < |after| ==> after[i].qty == QtyAt(rows + [row], after[i].px) > 0.0 && after[i].px > 0.0
  {
    hide QtyAt;
    var after := InsertAt(kept, pos, row);
    forall i | 0 <= i < |after| ensures after[i].qty == QtyAt(rows + [row], after[i].px) > 0.0 && after[i].px > 0.0 {
      RowAdds(rows, row, after[i].px);
      if i != pos {
        var j := if i < pos then i else i - 1;
        assert after[i] == kept[j];
      }
    }
  }

  /** A new price takes its place; a full side first gives up its last level, which can never come back. */
  lemma InsertKeeps(descending: bool, rows: seq<Level>, side: seq<Level>, row: Level, pos: nat)
    requires Best(descending, rows, side) && Positive(row) && !Has(side, row.px)
    requires pos < MAX_BOOK_LEVELS && Between(descending, side, pos, row.px)
    ensures var kept := if |side| < MAX_BOOK_LEVELS then side else side[..|side| - 1];
      Best(descending, rows + [row], InsertAt(kept, pos, row))
  {
    hide QtyAt;
    var kept := if |side| < MAX_BOOK_LEVELS then side else side[..|side| - 1];
    var after := InsertAt(kept, pos, row);
    NewPrice(descending, rows, side, row.px);
    InsertOrdered(descending, kept, row, pos);
    InsertLevels(rows, kept, row, pos);
    InsertRest(descending, rows, side, row, pos, kept);
  }

  lemma InsertRest(descending: bool, rows: seq<Level>, side: seq<Level>, row: Level, pos: nat, kept: seq<Level>)
    requires Best(descending, rows, side) && pos <= |side| && pos < MAX_BOOK_LEVELS
      && Between(descending, side, pos, row.px)
    requires kept == (if |side| < MAX_BOOK_LEVELS then side else side[..|side| - 1])
    ensures var after := InsertAt(kept, pos, row);
      forall px :: QtyAt(rows + [row], px) > 0.0 && !Has(after, px) ==>
        |after| == MAX_BOOK_LEVELS && Ahead(descending, after[MAX_BOOK_LEVELS - 1].px, px)
  {
    hide QtyAt, Ordered, Between;
    var after := InsertAt(kept, pos, row);
    assert after[pos].px == row.px;
    assert Has(after, row.px);
    LastMovesUp(descending, side, kept, row, pos);
    forall px | QtyAt(rows + [row], px) > 0.0 && !Has(after, px)
      ensures |after| == MAX_BOOK_LEVELS && Ahead(descending, after[MAX_BOOK_LEVELS - 1].px, px)
    {
      RowAdds(rows, row, px);
      LeftOut(side, kept, row, pos, px);
    }
  }

  /** A price on the old side is on the new one, unless it was the level given up. */
  lemma LeftOut(side: seq<Level>, kept: seq<Level>, row: Level, pos: nat, px: real)
    requires pos <= |kept| && (kept == side || (side != [] && kept == side[..|side| - 1]))
    ensures Has(side, px) ==> Has(InsertAt(kept, pos, row), px) || (kept != side && side[|side| - 1].px == px)
  {
    if Has(side, px) {
      var i :| 0 <= i < |side| && side[i].px == px;
      if i < |kept| { assert InsertAt(kept, pos, row)[if i < pos then i else i + 1].px == px; }
    }
  }

  /** The new last level of a full side is ahead of the one given up. */
  lemma LastMovesUp(descending: bool, side: seq<Level>, kept: seq<Level>, row: Level, pos: nat)
    requires Ordered(descending, side) && Between(descending, side, pos, row.px) && pos <= |kept|
    requires kept == side || (side != [] && kept == side[..|side| - 1])
    ensures kept != side ==> Ahead(descending, InsertAt(kept, pos, row)[|side| - 1].px, side[|side| - 1].px)
  {
  }

  /** A price behind a full side stays out. */
  lemma SkipKeeps(descending: bool, rows: seq<Level>, side: seq<Level>, row: Level)
    requires Best(descending, rows, side)
    requires !Positive(row) || (|side| == MAX_BOOK_LEVELS && Ahead(descending, side[MAX_BOOK_LEVELS - 1].px, row.px))
    ensures Best(descending, rows + [row], side)
  {
    hide QtyAt;
    forall i | 0 <= i < |side| ensures side[i].qty == QtyAt(rows + [row], side[i].px) {
      RowAdds(rows, row, side[i].px);
      if |side| == MAX_BOOK_LEVELS && i < MAX_BOOK_LEVELS - 1 {
        assert Ahead(descending, side[i].px, side[MAX_BOOK_LEVELS - 1].px);
      }
    }
    forall px | QtyAt(rows + [row], px) > 0.0 && !Has(side, px)
      ensures |side| == MAX_BOOK_LEVELS && Ahead(descending, side[MAX_BOOK_LEVELS - 1].px, px)
    {
      RowAdds(rows, row, px);
    }
  }

  /** One row into the side, in place. */
  method UpsertSorted(descending: bool, side: seq<Level>, row: Level, ghost rows: seq<Level>) returns (r: seq<Level>)
    requires Best(descending, rows, side) && Positive(row)
    ensures Best(descending, rows + [row], r)
  {
    hide Best;
    BestIsOrdered(descending, rows, side);
    var found, pos := Locate(descending, side, row.px);
    if found {
      JoinKeeps(descending, rows, side, row, pos);
      return side[pos := Level(row.px, side[pos].qty + row.qty)];
    }
    r := side;
    if |r| < MAX_BOOK_LEVELS {
      InsertKeeps(descending, rows, side, row, pos);
      r := InsertAt(r, pos, row);
    } else if pos < MAX_BOOK_LEVELS {
      InsertKeeps(descending, rows, side, row, pos);
      r := r[..|r| - 1];
      r := InsertAt(r, pos, row);
    } else {
      SkipKeeps(descending, rows, side, row);
    }
  }

  lemma BestIsOrdered(descending: bool, rows: seq<Level>, side: seq<Level>)
    requires Best(descending, rows, side)
    ensures Ordered(descending, side) && |side| <= MAX_BOOK_LEVELS
  {
  }

  /** Every row sequence: the side built is the best twenty levels of the full book. */
  method BuildSide(rows: seq<Level>, descending: bool) returns (side: seq<Level>)
    ensures Best(descending, rows, side)
  {
    side := [];
    var i := 0;
    NothingYet(descending);
    assert rows[..0] == [];
    while i < |rows|
      invariant 0 <= i <= |rows|
      invariant Best(descending, rows[..i], side)
    {
      assert rows[..i + 1] == rows[..i] + [rows[i]];
      if rows[i].px <= 0.0 || rows[i].qty <= 0.0 {
        SkipKeeps(descending, rows[..i], side, rows[i]);
      } else {
        side := UpsertSorted(descending, side, rows[i], rows[..i]);
      }
      i := i + 1;
    }
    assert rows[..i] == rows;
  }

  lemma NothingYet(descending: bool)
    ensures Best(descending, [], [])
  {
  }

  /** The rows alone determine the side: nothing is lost or counted twice by dropping levels on the way. */
  lemma BestIsUnique(descending: bool, rows: seq<Level>, a: seq<Level>, b: seq<Level>)
    requires Best(descending, rows, a) && Best(descending, rows, b)
    ensures a == b
  {
    hide Best;
    if |a| <= |b| {
      SamePrefix(descending, rows, a, b, |a|);
      Longer(descending, rows, a, b);
    } else {
      SamePrefix(descending, rows, a, b, |b|);
      Longer(descending, rows, b, a);
    }
  }

  lemma {:induction false} SamePrefix(descending: bool, rows: seq<Level>, a: seq<Level>, b: seq<Level>, n: nat)
    requires Best(descending, rows, a) && Best(descending, rows, b) && n <= |a| && n <= |b|
    ensures a[..n] == b[..n]
  {
    hide QtyAt;
    if n > 0 {
      SamePrefix(descending, rows, a, b, n - 1);
      NotBehind(descending, rows, a, b, n - 1);
      NotBehind(descending, rows, b, a, n - 1);
      assert a[n - 1].px == b[n - 1].px;
    }
  }

  /** With equal levels before, the next price of one side is not among them. */
  lemma NotBefore(descending: bool, a: seq<Level>, b: seq<Level>, i: nat, k: nat)
    requires Ordered(descending, b) && i < k <= |a| && k < |b| && a[..k] == b[..k]
    ensures a[i].px != b[k].px
  {
    assert a[..k][i] == b[..k][i];
    assert Ahead(descending, b[i].px, b[k].px);
  }

  /** With equal levels before, the next level of one side is not behind the other's. */
  lemma NotBehind(descending: bool, rows: seq<Level>, a: seq<Level>, b: seq<Level>, k: nat)
    requires Best(descending, rows, a) && Best(descending, rows, b) && k < |a| && k < |b| && a[..k] == b[..k]
    ensures !Ahead(descending, b[k].px, a[k].px)
  {
    hide QtyAt;
    if Has(a, b[k].px) {
      var i :| 0 <= i < |a| && a[i].px == b[k].px;
      if i < k { NotBefore(descending, a, b, i, k); } else if k < i { assert Ahead(descending, a[k].px, a[i].px); }
    } else if k < MAX_BOOK_LEVELS - 1 {
      assert Ahead(descending, a[k].px, a[MAX_BOOK_LEVELS - 1].px);
    }
  }

  lemma NotFull(descending: bool, rows: seq<Level>, side: seq<Level>, px: real)
    requires Best(descending, rows, side) && |side| < MAX_BOOK_LEVELS && QtyAt(rows, px) > 0.0
    ensures Has(side, px)
  {
  }

  /** A side that agrees with another as far as it goes goes as far. */
  lemma Longer(descending: bool, rows: seq<Level>, a: seq<Level>, b: seq<Level>)
    requires Best(descending, rows, a) && Best(descending, rows, b) && |a| <= |b| && a == b[..|a|]
    ensures |a| == |b|
  {
    hide QtyAt;
    if |a| < |b| {
      assert a[..|a|] == b[..|a|];
      NotFull(descending, rows, a, b[|a|].px);
      var i :| 0 <= i < |a| && a[i].px == b[|a|].px;
      NotBefore(descending, a, b, i, |a|);
    }
  }
}

/**
 A signed position (LIGHTER_ASTER_BOT/src/position.rs) and the simulated venue account over many markets
 (LIGHTER_ASTER_BOT/src/dryrun/account.rs).
 */
module Accounts {
  import opened Common
  import opened Reals
  import opened Sums

  datatype SignedPosition = SignedPosition(qty: real, avgPx: real)

  const FLAT := SignedPosition(0.0, 0.0)

  datatype Filled = Filled(p: SignedPosition, realized: real)

  /** The size-weighted average of two lots. */
  function Weighted(px: real, held: real, addPx: real, add: real): real
    requires held + add != 0.0
  {
    (px * held + addPx * add) / (held + add)
  }

  /** What closing `closed` of a position (long or short) at `px` realizes. */
  function Realized(long: bool, closed: real, avgPx: real, px: real): real {
    if long then closed * (px - avgPx) else closed * (avgPx - px)
  }

  /** Folds a signed fill into the position: it averages in, nets down, or flips through flat. */
  function ApplyFill(p: SignedPosition, signed: real, px: real): Filled {
    if signed == 0.0 then Filled(p, 0.0)
    else if p.qty == 0.0 || (p.qty > 0.0) == (signed > 0.0) then
      Filled(SignedPosition(p.qty + signed, Weighted(p.avgPx, RAbs(p.qty), px, RAbs(signed))), 0.0)
    else
      var realized := Realized(p.qty > 0.0, RMin(RAbs(p.qty), RAbs(signed)), p.avgPx, px);
      var qty := p.qty + signed;
      if qty == 0.0 then Filled(FLAT, realized)
      else if (qty > 0.0) == (p.qty > 0.0) then Filled(SignedPosition(qty, p.avgPx), realized)
      else Filled(SignedPosition(qty, px), realized)
  }

  // ---------------------------------------------------------------- the account

  datatype Account = Account(
    initial: real, balance: real, positions: map<string, SignedPosition>, realized: real, fees: real, funding: real)

  function Opened(initial: real): Account { Account(initial, initial, map[], 0.0, 0.0, 0.0) }

  function PositionIn(positions: map<string, SignedPosition>, market: string): SignedPosition {
    if market in positions then positions[market] else FLAT
  }

  function Booked(a: Account, market: string, signed: real, price: real, fee: real): Account {
    var f := ApplyFill(PositionIn(a.positions, market), signed, price);
    a.(positions := a.positions[market := f.p], realized := a.realized + f.realized, fees := a.fees + fee,
       balance := a.balance + (f.realized - fee))
  }

  function Funded(a: Account, amount: real): Account {
    a.(funding := a.funding + amount, balance := a.balance + amount)
  }

  datatype Event = FillEvent(market: string, signed: real, price: real, fee: real) | FundEvent(amount: real)

  function Run(initial: real, events: seq<Event>): Account {
    if events == [] then Opened(initial)
    else
      var a := Run(initial, events[..|events| - 1]);
      match events[|events| - 1]
      case FillEvent(market, signed, price, fee) => Booked(a, market, signed, price, fee)
      case FundEvent(amount) => Funded(a, amount)
  }

  /** Every run: a market with nothing open has no price. */
  lemma {:induction false} FlatHasNoPrice(initial: real, events: seq<Event>, market: string)
    ensures var p := PositionIn(Run(initial, events).positions, market); p.qty == 0.0 ==> p.avgPx == 0.0
  {
    hide Weighted, Realized;
    if events != [] { FlatHasNoPrice(initial, events[..|events| - 1], market); }
  }

  // ---------------------------------------------------------------- equity

  type Marks = map<string, real>

  /** The mark of a market, its entry price where there is none. */
  function MarkOf(marks: Marks, positions: map<string, SignedPosition>, market: string): real {
    if market in marks then marks[market] else PositionIn(positions, market).avgPx
  }

  function Unrealized(p: SignedPosition, mark: real): real { p.qty * (mark - p.avgPx) }

  function UnrealizedIn(marks: Marks, positions: map<string, SignedPosition>): string -> real {
    (m: string) => Unrealized(PositionIn(positions, m), MarkOf(marks, positions, m))
  }

  ghost function Equity(a: Account, marks: Marks): real {
    a.balance + Total(a.positions.Keys, UnrealizedIn(marks, a.positions))
  }

  /** The gain of every fill against a mark per market. */
  function Gain(events: seq<Event>, mark: string -> real): real {
    if events == [] then 0.0
    else
      var e := events[|events| - 1];
      Gain(events[..|events| - 1], mark) + if e.FillEvent? then Times(e.signed, mark(e.market) - e.price) else 0.0
  }

  /** What the fills paid, net, and what their quantities are worth at a mark. */
  function Spent(events: seq<Event>): real {
    if events == [] then 0.0
    else
      var e := events[|events| - 1];
      Spent(events[..|events| - 1]) + if e.FillEvent? then Times(e.signed, e.price) else 0.0
  }

  function Marked(events: seq<Event>, mark: string -> real): real {
    if events == [] then 0.0
    else
      var e := events[|events| - 1];
      Marked(events[..|events| - 1], mark) + if e.FillEvent? then Times(e.signed, mark(e.market)) else 0.0
  }

  function Cost(p: SignedPosition): real { p.qty * p.avgPx }

  function Costs(positions: map<string, SignedPosition>): string -> real {
    (m: string) => Cost(PositionIn(positions, m))
  }

  function Values(positions: map<string, SignedPosition>, mark: string -> real): string -> real {
    (m: string) => Times(PositionIn(positions, m).qty, mark(m))
  }

  lemma Weighs(px: real, held: real, addPx: real, add: real)
    requires held + add != 0.0
    ensures (held + add) * Weighted(px, held, addPx, add) == held * px + add * addPx
  {
    assert px * held + addPx * add == held * px + add * addPx;
  }

  /** Averaging, closing and flipping all move the position's cost by the fill's, less what they realize. */
  lemma FillMovesCost(p: SignedPosition, signed: real, px: real)
    ensures var f := ApplyFill(p, signed, px);
      f.p.qty == p.qty + signed && Cost(f.p) - f.realized == Cost(p) + signed * px
  {
    hide Weighted;
    if signed == 0.0 {
    } else if p.qty == 0.0 || (p.qty > 0.0) == (signed > 0.0) {
      var h, a := RAbs(p.qty), RAbs(signed);
      Weighs(p.avgPx, h, px, a);
      ProductSum(h, p.avgPx, 0.0);
      ProductSum(h, 0.0, p.avgPx);
      ProductSum(a, 0.0, px);
      var w := Weighted(p.avgPx, h, px, a);
      ProductSum(h + a, 0.0, w);
      assert p.qty + signed == if signed > 0.0 then h + a else -(h + a);
    } else {
      var closed := RMin(RAbs(p.qty), RAbs(signed));
      ProductSum(px, p.avgPx, closed);
      ProductSum(p.avgPx, px, closed);
      ProductSum(p.qty, signed, px);
      ProductSum(p.qty, signed, p.avgPx);
      ProductSum(signed, 0.0, px);
      ProductSum(signed, 0.0, p.avgPx);
      ProductSum(p.qty, 0.0, px);
      ProductSum(p.qty, 0.0, p.avgPx);
    }
  }

  lemma FillMovesTotals(a: Account, market: string, signed: real, price: real, fee: real, mark: string -> real)
    ensures var b := Booked(a, market, signed, price, fee);
      && Total(b.positions.Keys, Costs(b.positions)) - b.realized
         == Total(a.positions.Keys, Costs(a.positions)) - a.realized + Times(signed, price)
      && Total(b.positions.Keys, Values(b.positions, mark))
         == Total(a.positions.Keys, Values(a.positions, mark)) + Times(signed, mark(market))
  {
    hide ApplyFill, Cost, Times;
    var b, p := Booked(a, market, signed, price, fee), PositionIn(a.positions, market);
    FillCosts(p, signed, price);
    FlatCosts(mark(market));
    assert b.positions.Keys == a.positions.Keys + {market};
    TotalMoves(a.positions.Keys, market, Costs(a.positions), Costs(b.positions));
    TimesSum(p.qty, signed, mark(market));
    TotalMoves(a.positions.Keys, market, Values(a.positions, mark), Values(b.positions, mark));
  }

  lemma FillCosts(p: SignedPosition, signed: real, px: real)
    ensures var f := ApplyFill(p, signed, px);
      f.p.qty == p.qty + signed && Cost(f.p) - f.realized == Cost(p) + Times(signed, px)
  {
    hide ApplyFill, Cost;
    FillMovesCost(p, signed, px);
  }

  lemma FlatCosts(mark: real)
    ensures Cost(FLAT) == 0.0 && Times(0.0, mark) == 0.0
  {
  }

  /** The books close: balance, and realized gains against what the open positions cost and are worth. */
  lemma {:induction false} BooksClose(initial: real, events: seq<Event>, mark: string -> real)
    ensures var a := Run(initial, events);
      && a.initial == initial && a.balance == a.initial + a.realized - a.fees + a.funding
      && a.realized == Total(a.positions.Keys, Costs(a.positions)) - Spent(events)
      && Total(a.positions.Keys, Values(a.positions, mark)) == Marked(events, mark)
  {
    hide ApplyFill, Times, Costs, Values;
    if events != [] {
      var init, e := events[..|events| - 1], events[|events| - 1];
      BooksClose(initial, init, mark);
      if e.FillEvent? { FillMovesTotals(Run(initial, init), e.market, e.signed, e.price, e.fee, mark); }
    }
  }

  lemma {:induction false} GainSplits(events: seq<Event>, mark: string -> real)
    ensures Gain(events, mark) == Marked(events, mark) - Spent(events)
  {
    hide Times;
    if events != [] {
      GainSplits(events[..|events| - 1], mark);
      var e := events[|events| - 1];
      if e.FillEvent? { TimesSum(mark(e.market), e.price, e.signed); }
    }
  }

  /** The mark of each market as the account sees it. */
  function Effective(marks: Marks, positions: map<string, SignedPosition>): string -> real {
    (m: string) => MarkOf(marks, positions, m)
  }

  /**
   Every sequence of fills and funding, over any markets and marks: the balance is what the books say, and
   equity is what was put in, less fees, plus funding, plus the gain of every fill against its mark.
   */
  lemma EquityIdentity(initial: real, events: seq<Event>, marks: Marks)
    ensures var a := Run(initial, events);
      && a.balance == initial + a.realized - a.fees + a.funding
      && Equity(a, marks) == initial - a.fees + a.funding + Gain(events, Effective(marks, a.positions))
  {
    hide Run, Cost, Unrealized, Spent, Marked, Gain, Times;
    var a := Run(initial, events);
    var mark := Effective(marks, a.positions);
    BooksClose(initial, events, mark);
    GainSplits(events, mark);
    forall m ensures Values(a.positions, mark)(m) == UnrealizedIn(marks, a.positions)(m) + Costs(a.positions)(m) {
      UnrealizedSplits(PositionIn(a.positions, m), mark(m));
    }
    TotalSum(a.positions.Keys, UnrealizedIn(marks, a.positions), Costs(a.positions), Values(a.positions, mark));
  }

  lemma UnrealizedSplits(p: SignedPosition, mark: real)
    ensures Times(p.qty, mark) == Unrealized(p, mark) + Cost(p)
  {
    ProductSum(mark, p.avgPx, p.qty);
  }

  // ---------------------------------------------------------------- margin

  datatype Working = Working(buys: real, sells: real)

  function WorkingIn(working: map<string, Working>, market: string): Working {
    if market in working then working[market] else Working(0.0, 0.0)
  }

  function Exposure(qty: real, w: Working): real { RMax(RAbs(qty + w.buys), RAbs(qty - w.sells)) }

  function MarginOf(exposure: real, mark: real, leverage: real): real
    requires leverage != 0.0
  {
    exposure * mark / leverage
  }

  function MarkOrZero(marks: Marks, market: string): real { if market in marks then marks[market] else 0.0 }

  function MarginIn(positions: map<string, SignedPosition>, marks: Marks, working: map<string, Working>, leverage: real)
    : string -> real
    requires leverage != 0.0
  {
    (m: string) =>
      MarginOf(Exposure(PositionIn(positions, m).qty, WorkingIn(working, m)), MarkOrZero(marks, m), leverage)
  }

  ghost function Margin(positions: map<string, SignedPosition>, marks: Marks, working: map<string, Working>,
          leverage: real)
    : real
    requires leverage != 0.0
  {
    Total(positions.Keys + working.Keys, MarginIn(positions, marks, working, leverage))
  }

  /** What each market's working orders have filled so far: some of the buys, some of the sells. */
  ghost predicate Partial(filled: map<string, Working>, working: map<string, Working>) {
    forall m :: 0.0 <= WorkingIn(filled, m).buys <= WorkingIn(working, m).buys
             && 0.0 <= WorkingIn(filled, m).sells <= WorkingIn(working, m).sells
  }

  /** The margin the position would need after those fills. */
  function NeedIn(positions: map<string, SignedPosition>, filled: map<string, Working>, marks: Marks, leverage: real)
    : string -> real
    requires leverage != 0.0
  {
    (m: string) => MarginOf(RAbs(PositionIn(positions, m).qty + WorkingIn(filled, m).buys - WorkingIn(filled, m).sells),
                            MarkOrZero(marks, m), leverage)
  }

  lemma MarginGrows(x: real, y: real, mark: real, leverage: real)
    requires x <= y && mark >= 0.0 && leverage > 0.0
    ensures MarginOf(x, mark, leverage) <= MarginOf(y, mark, leverage)
  {
    assert (y - x) * mark >= 0.0;
    assert x * mark <= y * mark;
    OverGrows(x * mark, y * mark, leverage);
  }

  lemma WithinExposure(qty: real, f: Working, w: Working)
    requires 0.0 <= f.buys <= w.buys && 0.0 <= f.sells <= w.sells
    ensures RAbs(qty + f.buys - f.sells) <= Exposure(qty, w)
  {
  }

  /** However the working orders fill in part, the positions they leave need no more margin than was counted. */
  lemma MarginCovers(positions: map<string, SignedPosition>, marks: Marks, working: map<string, Working>,
          filled: map<string, Working>, leverage: real)
    requires leverage > 0.0 && (forall m :: m in marks ==> marks[m] >= 0.0) && Partial(filled, working)
    ensures Total(positions.Keys + working.Keys, NeedIn(positions, filled, marks, leverage))
      <= Margin(positions, marks, working, leverage)
  {
    hide MarginOf, Exposure;
    forall m ensures NeedIn(positions, filled, marks, leverage)(m) <= MarginIn(positions, marks, working, leverage)(m) {
      var qty, f, w := PositionIn(positions, m).qty, WorkingIn(filled, m), WorkingIn(working, m);
      assert 0.0 <= f.buys <= w.buys && 0.0 <= f.sells <= w.sells;
      WithinExposure(qty, f, w);
      MarginGrows(RAbs(qty + f.buys - f.sells), Exposure(qty, w), MarkOrZero(marks, m), leverage);
    }
    var need, margin := NeedIn(positions, filled, marks, leverage), MarginIn(positions, marks, working, leverage);
    TotalAtMost(positions.Keys + working.Keys, need, margin);
  }

  /** What the position, its working orders filled so far, is worth at a market's mark; nothing where there is none. */
  function Worth(positions: map<string, SignedPosition>, filled: map<string, Working>, marks: Marks): string -> real {
    (m: string) =>
      if m !in marks then 0.0
      else
        var qty := if m in positions then positions[m].qty else 0.0;
        var after := if m in filled then qty + filled[m].buys - filled[m].sells else qty;
        Times(if after >= 0.0 then after else -after, marks[m])
  }

  /** Each market has filled one side in full and nothing of the other. */
  ghost predicate OneSided(filled: map<string, Working>, working: map<string, Working>) {
    && filled.Keys == working.Keys
    && forall m :: m in working ==>
         filled[m] == Working(working[m].buys, 0.0) || filled[m] == Working(0.0, working[m].sells)
  }

  ghost predicate NotNegative(marks: Marks, working: map<string, Working>) {
    && (forall m :: m in marks ==> marks[m] >= 0.0)
    && (forall m :: m in working ==> working[m].buys >= 0.0 && working[m].sells >= 0.0)
  }

  /** The margin counted, at a leverage, is the most that the position can be worth however its orders fill in part. */
  lemma MarginIsWorst(positions: map<string, SignedPosition>, marks: Marks, working: map<string, Working>,
          leverage: real)
      returns (worst: map<string, Working>)
    requires leverage > 0.0 && NotNegative(marks, working)
    ensures var all := positions.Keys + working.Keys;
      var margin := Times(Margin(positions, marks, working, leverage), leverage);
      && OneSided(worst, working) && Total(all, Worth(positions, worst, marks)) == margin
      && forall filled :: Partial(filled, working) ==> Total(all, Worth(positions, filled, marks)) <= margin
  {
    hide Exposure, MarginOf, Times;
    var all := positions.Keys + working.Keys;
    var f := MarginIn(positions, marks, working, leverage);
    var g := (m: string) => Times(f(m), leverage);
    TotalScales(all, f, g, leverage);
    worst := WorstFill(positions, working);
    forall m | m in all ensures Worth(positions, worst, marks)(m) == g(m) {
      WorstIs(positions, marks, working, worst, leverage, m);
    }
    TotalSame(all, Worth(positions, worst, marks), g);
    forall filled | Partial(filled, working) ensures Total(all, Worth(positions, filled, marks)) <= Total(all, g) {
      forall m | m in all ensures Worth(positions, filled, marks)(m) <= g(m) {
        PartialIs(positions, marks, working, filled, leverage, m);
      }
      TotalAtMost(all, Worth(positions, filled, marks), g);
    }
  }

  /** The side that leaves the larger position, filled in full in every market. */
  function WorstFill(positions: map<string, SignedPosition>, working: map<string, Working>): map<string, Working> {
    map m | m in working ::
      var qty, w := PositionIn(positions, m).qty, working[m];
      if RAbs(qty + w.buys) >= RAbs(qty - w.sells) then Working(w.buys, 0.0) else Working(0.0, w.sells)
  }

  lemma LeveredBack(exposure: real, mark: real, leverage: real)
    requires leverage > 0.0
    ensures Times(MarginOf(exposure, mark, leverage), leverage) == Times(exposure, mark)
  {
  }

  lemma WorstIs(positions: map<string, SignedPosition>, marks: Marks, working: map<string, Working>,
          worst: map<string, Working>, leverage: real, m: string)
    requires leverage > 0.0 && NotNegative(marks, working) && worst == WorstFill(positions, working)
    ensures Worth(positions, worst, marks)(m) == Times(MarginIn(positions, marks, working, leverage)(m), leverage)
  {
    hide Times, MarginOf;
    var exposure := Exposure(PositionIn(positions, m).qty, WorkingIn(working, m));
    LeveredBack(exposure, MarkOrZero(marks, m), leverage);
    TimesSum(0.0, 0.0, exposure);
  }

  lemma PartialIs(positions: map<string, SignedPosition>, marks: Marks, working: map<string, Working>,
          filled: map<string, Working>, leverage: real, m: string)
    requires leverage > 0.0 && NotNegative(marks, working) && Partial(filled, working)
    ensures Worth(positions, filled, marks)(m) <= Times(MarginIn(positions, marks, working, leverage)(m), leverage)
  {
    hide Times, MarginOf, Exposure;
    var qty, f, w := PositionIn(positions, m).qty, WorkingIn(filled, m), WorkingIn(working, m);
    assert 0.0 <= f.buys <= w.buys && 0.0 <= f.sells <= w.sells;
    WithinExposure(qty, f, w);
    LeveredBack(Exposure(qty, w), MarkOrZero(marks, m), leverage);
    if m in marks {
      TimesGrows(RAbs(qty + f.buys - f.sells), Exposure(qty, w), marks[m]);
    } else {
      TimesSum(0.0, 0.0, Exposure(qty, w));
    }
  }

  // ---------------------------------------------------------------- as it runs

  const MAINTENANCE_RATE := 0.02

  function Maintenance(p: SignedPosition, mark: real): real { RAbs(p.qty) * mark * MAINTENANCE_RATE }

  function MaintenanceIn(marks: Marks, positions: map<string, SignedPosition>): string -> real {
    (m: string) => Maintenance(PositionIn(positions, m), MarkOf(marks, positions, m))
  }

  /** The size of each position at its mark, its entry price where there is none. */
  function MarkedSize(marks: Marks, positions: map<string, SignedPosition>): string -> real {
    (m: string) =>
      if m !in positions then 0.0
      else
        var p := positions[m];
        Times(if p.qty >= 0.0 then p.qty else -p.qty, if m in marks then marks[m] else p.avgPx)
  }

  /** Maintenance is a fiftieth, two percent, of the marked positions. */
  lemma MaintenanceIs(marks: Marks, positions: map<string, SignedPosition>)
    ensures Total(positions.Keys, MaintenanceIn(marks, positions)) * 50.0
      == Total(positions.Keys, MarkedSize(marks, positions))
  {
    forall m | m in positions
      ensures MarkedSize(marks, positions)(m) == Times(MaintenanceIn(marks, positions)(m), 50.0)
    {
      FiftyTimes(positions[m], MarkOf(marks, positions, m));
    }
    TotalScales(positions.Keys, MaintenanceIn(marks, positions), MarkedSize(marks, positions), 50.0);
  }

  lemma FiftyTimes(p: SignedPosition, mark: real)
    ensures Times(Maintenance(p, mark), 50.0) == Times(if p.qty >= 0.0 then p.qty else -p.qty, mark)
  {
  }

  datatype AccountView = AccountView(
    balance: real, unrealized: real, equity: real, margin: real, available: real, maintenanceBreach: bool)

  class OpenPosition {
    var qty: real
    var avgPx: real

    function View(): SignedPosition
      reads this
    {
      SignedPosition(qty, avgPx)
    }

    constructor ()
      ensures View() == FLAT
    {
      qty, avgPx := 0.0, 0.0;
    }

    /** Folds a signed fill in; returns what it realized. */
    method Fill(signed: real, px: real) returns (realized: real)
      modifies this
      ensures Filled(View(), realized) == ApplyFill(old(View()), signed, px)
    {
      hide Weighted, Realized;
      realized := 0.0;
      if signed == 0.0 { return; }
      if qty == 0.0 || (qty > 0.0) == (signed > 0.0) {
        avgPx := Weighted(avgPx, RAbs(qty), px, RAbs(signed));
        qty := qty + signed;
        return;
      }
      realized := Realized(qty > 0.0, RMin(RAbs(qty), RAbs(signed)), avgPx, px);
      var after := qty + signed;
      if after == 0.0 {
        avgPx := 0.0;
      } else if (after > 0.0) != (qty > 0.0) {
        avgPx := px;
      }
      qty := after;
    }
  }

  class Ledger {
    const initial: real
    var balance: real
    var positions: map<string, SignedPosition>
    var realized: real
    var fees: real
    var funding: real

    function View(): Account
      reads this
    {
      Account(initial, balance, positions, realized, fees, funding)
    }

    constructor (initial: real)
      ensures View() == Opened(initial)
    {
      this.initial, balance, positions := initial, initial, map[];
      realized, fees, funding := 0.0, 0.0, 0.0;
    }

    method Fill(market: string, signed: real, price: real, fee: real) returns (closed: real)
      modifies this
      ensures View() == Booked(old(View()), market, signed, price, fee)
      ensures closed == realized - old(realized)
    {
      hide ApplyFill;
      var f := ApplyFill(PositionIn(positions, market), signed, price);
      closed := f.realized;
      positions := positions[market := f.p];
      realized := realized + closed;
      fees := fees + fee;
      balance := balance + (closed - fee);
    }

    method Fund(amount: real)
      modifies this`funding, this`balance
      ensures View() == Funded(old(View()), amount)
    {
      funding := funding + amount;
      balance := balance + amount;
    }

    method CountMargin(marks: Marks, working: map<string, Working>, leverage: real) returns (total: real)
      requires leverage != 0.0
      ensures total == Margin(positions, marks, working, leverage)
    {
      hide MarginOf, Exposure;
      var todo := positions.Keys + working.Keys;
      ghost var f := MarginIn(positions, marks, working, leverage);
      total := 0.0;
      while todo != {}
        invariant todo <= positions.Keys + working.Keys
        invariant total + Total(todo, f) == Total(positions.Keys + working.Keys, f)
        decreases todo
      {
        NoneOrSome(todo);
        var m :| m in todo;
        TotalTakes(todo, m, f);
        var exposure := Exposure(PositionIn(positions, m).qty, WorkingIn(working, m));
        total := total + MarginOf(exposure, MarkOrZero(marks, m), leverage);
        todo := todo - {m};
      }
    }

    method Look(marks: Marks, working: map<string, Working>, leverage: real) returns (v: AccountView)
      requires leverage != 0.0
      ensures v.balance == balance && v.equity == Equity(View(), marks) && v.equity == v.balance + v.unrealized
      ensures v.margin == Margin(positions, marks, working, leverage) && v.available == v.equity - v.margin
      ensures v.maintenanceBreach <==> v.equity * 50.0 < Total(positions.Keys, MarkedSize(marks, positions))
    {
      hide Maintenance, Unrealized, MarginOf, Exposure;
      MaintenanceIs(marks, positions);
      var unrealized, maintenance := 0.0, 0.0;
      var todo := positions.Keys;
      ghost var f, g := UnrealizedIn(marks, positions), MaintenanceIn(marks, positions);
      while todo != {}
        invariant todo <= positions.Keys
        invariant unrealized + Total(todo, f) == Total(positions.Keys, f)
        invariant maintenance + Total(todo, g) == Total(positions.Keys, g)
        decreases todo
      {
        NoneOrSome(todo);
        var m :| m in todo;
        TotalTakes(todo, m, f);
        TotalTakes(todo, m, g);
        var p, mark := positions[m], MarkOf(marks, positions, m);
        unrealized := unrealized + Unrealized(p, mark);
        maintenance := maintenance + Maintenance(p, mark);
        todo := todo - {m};
      }
      var equity := balance + unrealized;
      var margin := CountMargin(marks, working, leverage);
      v := AccountView(balance, unrealized, equity, margin, equity - margin, equity < maintenance);
    }
  }
}

/** The portfolio summary: buying power, equity, and what it adds up to. */
module PortfolioView {
  import opened Wrappers
  import opened Sums
  import opened MoneyMath
  import opened OrderMachine
  import opened Rows
  import opened Engine
  import opened Portfolio
  import opened Conservation
  import opened OrderRecord
  import opened SellSafety

  /** The last price of each instrument, where there is a quote. */
  type Quotes = InstrumentId -> Option<Px>

  datatype PositionView = PositionView(qty: nat, sellable: nat, avgCost: Px, marketValue: Option<Money>,
                                       unrealized: Option<Money>)

  datatype Summary = Summary(positions: map<InstrumentId, PositionView>, equity: Money, buyingPower: Money,
                             positionsValue: Money, realized: Money)

  function Held(positions: map<InstrumentId, Position>): set<InstrumentId> {
    set i | i in positions && positions[i].qty > 0
  }

  /** The market values of the held positions of `ids` that have a quote. */
  ghost function Values(positions: map<InstrumentId, Position>, quotes: Quotes,
                        ids: set<InstrumentId>): map<InstrumentId, Money> {
    map i | i in ids && i in Held(positions) && quotes(i).Some? :: Notional(quotes(i).value, positions[i].qty)
  }

  /** roundBasis: the whole basis, allocated to the whole quantity. */
  function RoundBasis(p: Position): Money { HalfEven(p.basis, 100) }

  /**
   * One row of the page, for a held position of which `open` shares are promised to open sells; None
   * where Qty refuses a negative sellable quantity or Px an average cost that rounds to zero.
   */
  function ViewRow(p: Position, quote: Option<Px>, open: int): (r: Option<PositionView>)
    requires 0 < p.qty
    ensures r.None? <==> p.qty < open || 2 * p.basis <= p.qty
  {
    var average := AvgPx(p.basis, p.qty);
    if p.qty < open || average.None? then None
    else
      var value := if quote.Some? then Some(Notional(quote.value, p.qty)) else None;
      Some(PositionView(p.qty, p.qty - open, average.value, value,
                        if value.Some? then Some(value.value - RoundBasis(p)) else None))
  }

  ghost predicate ViewOf(p: Position, orders: seq<Order>, quotes: Quotes, i: InstrumentId, v: PositionView) {
    0 < p.qty && ViewRow(p, quotes(i), SumOf(orders, SellHold(i))) == Some(v)
  }

  /** Every held position, each as the page shows it. */
  ghost predicate ShownAs(positions: map<InstrumentId, Position>, orders: seq<Order>, quotes: Quotes,
                          views: map<InstrumentId, PositionView>) {
    && views.Keys <= positions.Keys
    && forall i | i in views :: ViewOf(positions[i], orders, quotes, i, views[i])
  }

  /** More is promised to open sells than is held. */
  ghost predicate Overpromised(positions: map<InstrumentId, Position>, orders: seq<Order>, i: InstrumentId) {
    i in Held(positions) && positions[i].qty < SumOf(orders, SellHold(i))
  }

  /** The shares cost half a ten-thousandth of a dollar each, or less. */
  ghost predicate Worthless(positions: map<InstrumentId, Position>, i: InstrumentId) {
    i in Held(positions) && 2 * positions[i].basis <= positions[i].qty
  }

  /** The rows the page cannot show. */
  ghost predicate Unshowable(positions: map<InstrumentId, Position>, orders: seq<Order>, i: InstrumentId) {
    Overpromised(positions, orders, i) || Worthless(positions, i)
  }

  lemma OneMoreValued(positions: map<InstrumentId, Position>, quotes: Quotes, done: set<InstrumentId>, i: InstrumentId)
    requires i in Held(positions) && i !in done
    ensures SumOver(Values(positions, quotes, done + {i}), Itself) == SumOver(Values(positions, quotes, done), Itself)
      + if quotes(i).Some? then Notional(quotes(i).value, positions[i].qty) else 0
  {
    hide SumOver, Notional;
    var before := Values(positions, quotes, done);
    if quotes(i).Some? {
      SumPut(before, i, Notional(quotes(i).value, positions[i].qty), Itself);
      assert Values(positions, quotes, done + {i}) == before[i := Notional(quotes(i).value, positions[i].qty)];
    } else {
      assert Values(positions, quotes, done + {i}) == before;
    }
  }

  lemma NothingValued(positions: map<InstrumentId, Position>, quotes: Quotes)
    ensures SumOver(Values(positions, quotes, {}), Itself) == 0
  {
  }

  lemma NothingShown(positions: map<InstrumentId, Position>, orders: seq<Order>, quotes: Quotes)
    ensures ShownAs(positions, orders, quotes, map[])
  {
  }

  lemma OneMoreShown(positions: map<InstrumentId, Position>, orders: seq<Order>, quotes: Quotes,
                     views: map<InstrumentId, PositionView>, i: InstrumentId, v: PositionView)
    requires ShownAs(positions, orders, quotes, views) && i in positions && 0 < positions[i].qty
    requires ViewRow(positions[i], quotes(i), SumOf(orders, SellHold(i))) == Some(v)
    ensures ShownAs(positions, orders, quotes, views[i := v]) && views[i := v].Keys == views.Keys + {i}
  {
    hide ViewRow, SumOf, SellHold;
  }

  lemma TakenOver(done: set<InstrumentId>, left: set<InstrumentId>, i: InstrumentId)
    requires i in left && done !! left
    ensures done + {i} + (left - {i}) == done + left && done + {i} !! left - {i}
  {
  }

  lemma HeldArePositive(positions: map<InstrumentId, Position>)
    ensures forall i | i in Held(positions) :: i in positions && 0 < positions[i].qty
  {
  }

  lemma RefusedIsUnshowable(positions: map<InstrumentId, Position>, orders: seq<Order>, quotes: Quotes, i: InstrumentId)
    requires i in Held(positions) && ViewRow(positions[i], quotes(i), SumOf(orders, SellHold(i))).None?
    ensures Unshowable(positions, orders, i)
  {
    hide SumOf;
  }

  /** A shown row is none of those the page cannot show. */
  lemma ShownIsShowable(positions: map<InstrumentId, Position>, orders: seq<Order>, quotes: Quotes,
                        views: map<InstrumentId, PositionView>)
    requires ShownAs(positions, orders, quotes, views) && views.Keys == Held(positions)
    ensures forall i :: !Unshowable(positions, orders, i)
  {
    hide SumOf;
    forall i ensures !Unshowable(positions, orders, i) {
      if i in views { assert ViewOf(positions[i], orders, quotes, i, views[i]); }
    }
  }

  // ---- what a row says ----

  ghost predicate AllQuoted(positions: map<InstrumentId, Position>, quotes: Quotes) {
    forall i | i in Held(positions) :: quotes(i).Some?
  }

  ghost function Gains(positions: map<InstrumentId, Position>, quotes: Quotes): map<InstrumentId, Money>
    requires AllQuoted(positions, quotes)
  {
    map i | i in Held(positions) :: Notional(quotes(i).value, positions[i].qty) - RoundBasis(positions[i])
  }

  /** The shares of an instrument promised to open sells, as the orders repository asks for them. */
  function Promised(orders: seq<Order>, i: InstrumentId): int { SumOf(Where(orders, OpenSell(i)), Remainder) }

  /**
   * A row read as a statement about the position: sellable and promised shares make up the holding,
   * the average cost is the basis per share, and value less gain is the basis, each rounded once.
   */
  ghost predicate Says(v: PositionView, p: Position, quote: Option<Px>, promised: int) {
    && v.qty == p.qty && v.sellable + promised == p.qty && 0 < p.qty
    && IsHalfEven(p.basis, p.qty, v.avgCost)
    && (v.marketValue.Some? <==> quote.Some?) && (v.unrealized.Some? <==> quote.Some?)
    && (quote.Some? ==>
      && IsHalfEven(quote.value * p.qty, 100, v.marketValue.value)
      && IsHalfEven(p.basis, 100, v.marketValue.value - v.unrealized.value))
  }

  ghost predicate AllSay(views: map<InstrumentId, PositionView>, positions: map<InstrumentId, Position>,
                         orders: seq<Order>, quotes: Quotes) {
    forall i | i in views :: i in positions && Says(views[i], positions[i], quotes(i), Promised(orders, i))
  }

  lemma ShownSay(positions: map<InstrumentId, Position>, orders: seq<Order>, quotes: Quotes,
                  views: map<InstrumentId, PositionView>)
    requires ShownAs(positions, orders, quotes, views)
    ensures AllSay(views, positions, orders, quotes)
  {
    hide SumOf, Where, ViewOf, Says, Promised;
    forall i | i in views ensures i in positions && Says(views[i], positions[i], quotes(i), Promised(orders, i)) {
      RowSays(positions[i], orders, quotes, i, views[i]);
    }
  }

  lemma RowSays(p: Position, orders: seq<Order>, quotes: Quotes, i: InstrumentId, v: PositionView)
    requires ViewOf(p, orders, quotes, i, v)
    ensures Says(v, p, quotes(i), Promised(orders, i))
  {
    hide SumOf, Where;
    PromisedIs(orders, i);
  }

  /** Figures of the rows that have them. */
  ghost function ShownValues(views: map<InstrumentId, PositionView>): map<InstrumentId, Money> {
    map i | i in views && views[i].marketValue.Some? :: views[i].marketValue.value
  }

  ghost function ShownGains(views: map<InstrumentId, PositionView>): map<InstrumentId, Money> {
    map i | i in views && views[i].unrealized.Some? :: views[i].unrealized.value
  }

  /** What the rows show is what the summary adds up. */
  lemma ShownAddUp(positions: map<InstrumentId, Position>, orders: seq<Order>, quotes: Quotes,
                    views: map<InstrumentId, PositionView>)
    requires ShownAs(positions, orders, quotes, views) && views.Keys == Held(positions)
    ensures ShownValues(views) == Values(positions, quotes, Held(positions))
    ensures AllQuoted(positions, quotes) ==> ShownGains(views) == Gains(positions, quotes)
  {
    hide SumOf, Notional, SellHold, RoundBasis, AvgPx, ViewOf;
    forall i | i in views ensures Figures(views[i], positions[i], quotes(i)) {
      FiguresShown(positions[i], orders, quotes, i, views[i]);
    }
  }

  ghost predicate Figures(v: PositionView, p: Position, quote: Option<Px>) {
    && v.marketValue == (if quote.Some? then Some(Notional(quote.value, p.qty)) else None)
    && v.unrealized == if quote.Some? then Some(Notional(quote.value, p.qty) - RoundBasis(p)) else None
  }

  lemma FiguresShown(p: Position, orders: seq<Order>, quotes: Quotes, i: InstrumentId, v: PositionView)
    requires ViewOf(p, orders, quotes, i, v)
    ensures Figures(v, p, quotes(i))
  {
  }

  // ---- the page ----

  /** The loop of `view` over the held positions. */
  method ViewPositions(positions: map<InstrumentId, Position>, orders: seq<Order>, quotes: Quotes)
    returns (views: map<InstrumentId, PositionView>, value: Money, refused: Option<InstrumentId>)
    ensures refused.Some? ==> Unshowable(positions, orders, refused.value)
    ensures refused.None? ==>
      && (forall i :: !Unshowable(positions, orders, i))
      && views.Keys == Held(positions) && ShownAs(positions, orders, quotes, views)
      && AllSay(views, positions, orders, quotes)
      && value == SumOver(Values(positions, quotes, Held(positions)), Itself)
  {
    hide *;
    HeldArePositive(positions);
    NothingShown(positions, orders, quotes);
    NothingValued(positions, quotes);
    var left := Held(positions);
    ghost var done: set<InstrumentId> := {};
    views, value, refused := map[], 0, None;
    while left != {}
      invariant done !! left && done + left == Held(positions)
      invariant views.Keys == done && ShownAs(positions, orders, quotes, views)
      invariant value == SumOver(Values(positions, quotes, done), Itself)
      decreases |left|
    {
      ghost var any := AnyOf(left);
      var i :| i in left;
      var row := ViewRow(positions[i], quotes(i), SumOf(orders, SellHold(i)));
      if row.None? {
        RefusedIsUnshowable(positions, orders, quotes, i);
        return views, value, Some(i);
      }
      OneMoreShown(positions, orders, quotes, views, i, row.value);
      TakenOver(done, left, i);
      OneMoreValued(positions, quotes, done, i);
      if quotes(i).Some? { value := value + Notional(quotes(i).value, positions[i].qty); }
      views, left, done := views[i := row.value], left - {i}, done + {i};
    }
    ShownIsShowable(positions, orders, quotes, views);
    ShownSay(positions, orders, quotes, views);
  }

  /** What makes the page throw. */
  ghost predicate CannotView(s: State) {
    Replay(Chronological(s.fills)).None? || exists i :: Unshowable(s.positions, s.orders, i)
  }

  /** PortfolioService.view; None where it throws. */
  method View(tx: Database, quotes: Quotes) returns (view: Option<Summary>)
    ensures view.None? <==> CannotView(tx.Contents())
    ensures view.Some? ==>
      && view.value.positions.Keys == Held(tx.positions)
      && AllSay(view.value.positions, tx.positions, tx.orders, quotes)
      && ShownValues(view.value.positions) == Values(tx.positions, quotes, Held(tx.positions))
      && (AllQuoted(tx.positions, quotes) ==> ShownGains(view.value.positions) == Gains(tx.positions, quotes))
      && view.value.positionsValue == SumOver(Values(tx.positions, quotes, Held(tx.positions)), Itself)
      && view.value.equity == tx.cash + view.value.positionsValue
      && view.value.buyingPower == tx.cash - SumOf(Where(tx.orders, OpenBuy), ReservedCash)
                                   - SumOf(Where(tx.transfers, PendingWithdrawal), AmountAsked)
      && Replay(Chronological(tx.fills)).Some? && view.value.realized == Replay(Chronological(tx.fills)).value.realized
  {
    hide SumOver, SumOf, Where, Values, Replay, Chronological, ShownAs, Held, Unshowable, AllSay, ShownValues, ShownGains, Gains,
         AllQuoted;
    var views, value, refused := ViewPositions(tx.positions, tx.orders, quotes);
    if refused.Some? { return None; }
    var reserved, heldForWithdrawals := SumOf(tx.orders, BuyHold), SumOf(tx.transfers, WithdrawalHold);
    var realized := RealizedPnl(tx.fills);
    if realized.None? { return None; }
    ShownAddUp(tx.positions, tx.orders, quotes, views);
    BuyingPowerIs(tx.Contents());
    return Some(Summary(views, tx.cash + value, tx.cash - reserved - heldForWithdrawals, value, realized.value));
  }

  // ---- what the summary adds up to ----

  /** On whole-cent bases: market value is cost basis plus unrealized gain, in total. */
  lemma {:induction false} ValueIsBasisPlusGain(positions: map<InstrumentId, Position>, quotes: Quotes)
    requires WholeCents(positions) && AllQuoted(positions, quotes)
    ensures SumOver(Values(positions, quotes, Held(positions)), Itself) ==
            SumOver(positions, BasisCents) + SumOver(Gains(positions, quotes), Itself)
    decreases |positions|
  {
    if positions == map[] {
      assert Values(positions, quotes, Held(positions)) == map[] && Gains(positions, quotes) == map[];
    } else {
      hide SumOver, Notional, HalfEven;
      ghost var i := AnyOf(positions.Keys);
      var rest := positions - {i};
      Smaller(positions, i);
      assert Held(rest) == Held(positions) - {i};
      ValueIsBasisPlusGain(rest, quotes);
      SumTakeOut(positions, i, BasisCents);
      OneValueAndGain(positions, quotes, i);
    }
  }

  lemma OneValueAndGain(positions: map<InstrumentId, Position>, quotes: Quotes, i: InstrumentId)
    requires WholeCents(positions) && AllQuoted(positions, quotes) && i in positions
    ensures var rest := positions - {i};
      && AllQuoted(rest, quotes)
      && SumOver(Values(positions, quotes, Held(positions)), Itself) - SumOver(Gains(positions, quotes), Itself) ==
           SumOver(Values(rest, quotes, Held(rest)), Itself) - SumOver(Gains(rest, quotes), Itself) + BasisCents(positions[i])
  {
    hide SumOver, Notional;
    var p := positions[i];
    ValuesWithout(positions, quotes, i);
    GainsWithout(positions, quotes, i);
    if p.qty > 0 {
      SumTakeOut(Values(positions, quotes, Held(positions)), i, Itself);
      SumTakeOut(Gains(positions, quotes), i, Itself);
      assert p.basis == BasisCents(p) * 100;
      HalfEvenExact(BasisCents(p), 100);
    }
  }

  lemma ValuesWithout(positions: map<InstrumentId, Position>, quotes: Quotes, i: InstrumentId)
    ensures var rest, values := positions - {i}, Values(positions, quotes, Held(positions));
      Values(rest, quotes, Held(rest)) == values - {i} && (i !in Held(positions) ==> values - {i} == values)
  {
    hide Notional;
  }

  lemma GainsWithout(positions: map<InstrumentId, Position>, quotes: Quotes, i: InstrumentId)
    requires AllQuoted(positions, quotes)
    ensures var rest, gains := positions - {i}, Gains(positions, quotes);
      AllQuoted(rest, quotes) && Gains(rest, quotes) == gains - {i} && (i !in Held(positions) ==> gains - {i} == gains)
  {
    hide Notional, RoundBasis;
  }

  /**
   * Net worth is explained to the cent in every run: with every holding quoted, equity is what was
   * paid in and settled, plus the P&L booked fill by fill, plus the unrealized gains the page shows.
   * The page's own realized figure says the same when each instrument was booked as it executed.
   */
  lemma {:induction false} NetWorthExplained(s: State, actions: seq<Action>, quotes: Quotes)
    requires Initial(s) && AllQuoted(Run(s, actions).positions, quotes)
    ensures var e := Run(s, actions);
      && Tallied(e.fills).Some?
      && e.cash + SumOver(Values(e.positions, quotes, Held(e.positions)), Itself) ==
           OpeningPaid(e) + SumOf(e.transfers, SettledAmount) + Tallied(e.fills).value.realized
             + SumOver(Gains(e.positions, quotes), Itself)
    ensures BookedInOrder(Run(s, actions).fills) ==>
      Replay(Chronological(Run(s, actions).fills)) == Tallied(Run(s, actions).fills)
  {
    hide Run, SumOver, SumOf, Replay, Chronological, AllQuoted;
    ExactConservation(s, actions);
    EveryRun(s, actions);
    var e := Run(s, actions);
    ReplayIsBookkeeping(e.fills);
    if BookedInOrder(e.fills) { ChronologyAgrees(e.fills); }
    ValueIsBasisPlusGain(e.positions, quotes);
  }

  /**
   * In every run without late fills whose fills were booked, per instrument, as they executed, the
   * page throws if and only if some holding's average cost rounds to zero.
   */
  lemma {:induction false} ViewThrowsIff(s: State, actions: seq<Action>)
    requires Initial(s) && NoLateFills(s, actions) && BookedInOrder(Run(s, actions).fills)
    ensures CannotView(Run(s, actions)) <==> exists i :: Worthless(Run(s, actions).positions, i)
  {
    hide Run, SumOf, Replay, Chronological;
    ExactConservation(s, actions);
    EveryRunCovered(s, actions);
    var e := Run(s, actions);
    ChronologyAgrees(e.fills);
    forall i ensures !Overpromised(e.positions, e.orders, i) {
      assert SumOf(e.orders, SellHold(i)) <= HeldQty(e, i);
    }
    if i :| Worthless(e.positions, i) { assert Unshowable(e.positions, e.orders, i); }
  }
}

/**
 * Two ordinary runs the portfolio page does not take well: one in which a holding's average cost
 * rounds to zero, and one in which two orders were booked in another order than they executed.
 */
module PageRuns {
  import opened Wrappers
  import opened Sums
  import opened StableSort
  import opened MoneyMath
  import opened OrderMachine
  import opened Rows
  import opened Accounting
  import opened Orders
  import opened ExecutionService
  import opened Accounts
  import opened Engine
  import opened Portfolio
  import opened OrderRecord
  import opened Reconciliation
  import opened PortfolioView

  const CREATED := State(Config(Ratio(0, 1), 1, 500, 500, 0), 100000, 0, Provisioning, false, 0, [], [], [], [], map[], [])
  const OPENED := CREATED.(status := Active, linked := true, cash := 100000,
                           ledger := [Entry(DepositEntry, 100000, ToAccount)])

  const START := [LinkVenue, Activate(100000)]

  function Limited(side: Side, qty: nat, limit: Px, key: Key): NewOrder {
    NewOrder(side, Limit, 5, true, qty, Some(limit), None, key)
  }

  function Done(n: NewOrder): Order { NewRow(n, 0).(state := Filled, filledQty := n.qty) }

  function Filling(id: OrderId, x: Execution): Action {
    Deliver(Event(OrderFilled, id, Some(StreamId(x.id)), Some(x)))
  }

  /** What the next steps read of a state: an active account with these orders, fills and position. */
  ghost predicate Stands(s: State, orders: seq<Order>, fills: seq<Fill>, position: Option<Position>) {
    && s.status.Active? && s.orders == orders && s.fills == fills && s.transfers == []
    && s.positions == (if position.Some? then map[5 := position.value] else map[])
    && LabelsHonest(s)
    && forall x :: Seen(s.audit, x) ==> x.StreamId? && Booked(fills, x.ulid)
  }

  lemma RunOn(s: State, actions: seq<Action>, a: Action)
    ensures Run(s, actions + [a]) == Next(Run(s, actions), a)
  {
    assert (actions + [a])[..|actions|] == actions;
  }

  lemma OpensAccount()
    ensures Initial(CREATED) && Run(CREATED, START) == OPENED
    ensures Stands(OPENED, [], [], None)
  {
    assert Opened(OPENED, 100000, true, 100000);
    OpeningIsARun(OPENED, true, 100000);
  }

  lemma FillsNewRow(n: NewOrder, reserved: Money, x: Execution)
    requires 0 < n.qty && x.qty == n.qty
    ensures Advance(NewRow(n, reserved), OrderFilled, Some(x)) ==
            Moved([Step(PendingSubmission, Accepted, true), Step(Accepted, Filled, false)], Done(n))
  {
  }

  /** A whole order filled in one execution, straight after placement. */
  lemma FillsWhole(s: State, orders: seq<Order>, fills: seq<Fill>, position: Option<Position>, id: OrderId, n: NewOrder,
                   reserved: Money, x: Execution, next: Position)
    requires Stands(s, orders, fills, position) && id < |orders| && orders[id] == NewRow(n, reserved) && n.instrument == 5
    requires 0 < n.qty && x.qty == n.qty && x.fee == 0 && 0 < Notional(x.price, x.qty) && !Booked(fills, x.id)
    requires Repositioned(position, n.side, x.qty, Notional(x.price, x.qty), 0) == Some(next)
    ensures Stands(Next(s, Filling(id, x)), orders[id := Done(n)], fills + [FillRow(orders[id], id, x)], Some(next))
    ensures FillRow(orders[id], id, x) == Fill(id, n.side, 5, x.qty, x.price, 0, Notional(x.price, x.qty), x.id, x.at)
  {
    hide Notional, Repositioned, LabelsHonest, Booked, Seen, Advance, EventApplied;
    var e := Filling(id, x).event;
    assert Lookup(s.positions, 5) == position;
    FillsNewRow(n, reserved, x);
    var after := EventBooks(s, e);
    assert after.positions == map[5 := next];
    NewlyBooked(fills, FillRow(orders[id], id, x));
    OrdersApart(s, Filling(id, x));
  }

  lemma PlacesBuy(orders: seq<Order>, n: NewOrder)
    requires n.side.Buy? && n.typ.Limit? && n.limit.Some? && 0 < n.qty && n.tradable
    requires WithKey(orders, OrderKey, n.key).None?
    requires SumOf(orders, BuyHold) + Notional(n.limit.value, n.qty) <= 100000
    ensures Next(OPENED.(orders := orders), PlaceOrder(n)) ==
            OPENED.(orders := orders + [NewRow(n, Notional(n.limit.value, n.qty))])
  {
    hide Notional;
    assert SumOf(OPENED.transfers, WithdrawalHold) == 0;
  }

  lemma PlacesSell(s: State, orders: seq<Order>, fills: seq<Fill>, p: Position, n: NewOrder)
    requires Stands(s, orders, fills, Some(p)) && n.side.Sell? && n.typ.Limit? && n.limit.Some? && n.instrument == 5
    requires WithKey(orders, OrderKey, n.key).None? && 0 < n.qty && SumOf(orders, SellHold(5)) == 0 && n.qty <= p.qty
    ensures Stands(Next(s, PlaceOrder(n)), orders + [NewRow(n, 0)], fills, Some(p))
  {
    hide SumOf, LabelsHonest, Seen, Booked;
    assert Sellable(s, 5) == p.qty;
    var next := Next(s, PlaceOrder(n));
    assert next == s.(orders := orders + [NewRow(n, 0)]);
    SameLabels(s, next);
  }

  lemma SameLabels(s: State, next: State)
    requires LabelsHonest(s) && next.audit == s.audit && next.fills == s.fills
    ensures LabelsHonest(next)
  {
  }

  // ---- an average cost of zero ----

  const CHEAP_BUY := Limited(Buy, 3, 34, 0)
  const CHEAP_SELL := Limited(Sell, 2, 34, 1)
  const BOUGHT := Execution(0, 3, 34, 0, 1, false)
  const SOLD := Execution(1, 2, 34, 0, 2, false)
  const CHEAP_BOUGHT := START + [PlaceOrder(CHEAP_BUY)] + [Filling(0, BOUGHT)]
  const CHEAP := CHEAP_BOUGHT + [PlaceOrder(CHEAP_SELL)] + [Filling(1, SOLD)]

  lemma CheapFigures()
    ensures Notional(34, 3) == 1 && Notional(34, 2) == 1
    ensures Repositioned(None, Buy, 3, 1, 0) == Some(Position(3, 100))
    ensures Repositioned(Some(Position(3, 100)), Sell, 2, 1, 0) == Some(Position(1, 0))
  {
    assert HalfEven(102, 100) == 1 && HalfEven(68, 100) == 1;
    assert HalfEven(200, 300) == 1;
  }

  lemma CheapBought()
    ensures Stands(Run(CREATED, CHEAP_BOUGHT), [Done(CHEAP_BUY)],
                   [Fill(0, Buy, 5, 3, 34, 0, 1, 0, 1)], Some(Position(3, 100)))
  {
    CheapFigures();
    OpensAccount();
    hide Run, Notional, Repositioned, Stands;
    PlacesBuy([], CHEAP_BUY);
    RunOn(CREATED, START, PlaceOrder(CHEAP_BUY));
    var s := OPENED.(orders := [NewRow(CHEAP_BUY, 1)]);
    assert [] + [NewRow(CHEAP_BUY, 1)] == [NewRow(CHEAP_BUY, 1)];
    StandsPlaced([NewRow(CHEAP_BUY, 1)]);
    FillsWhole(s, s.orders, [], None, 0, CHEAP_BUY, 1, BOUGHT, Position(3, 100));
    RunOn(CREATED, START + [PlaceOrder(CHEAP_BUY)], Filling(0, BOUGHT));
    assert s.orders[0 := Done(CHEAP_BUY)] == [Done(CHEAP_BUY)];
    assert [] + [FillRow(s.orders[0], 0, BOUGHT)] == [Fill(0, Buy, 5, 3, 34, 0, 1, 0, 1)];
  }

  lemma StandsPlaced(orders: seq<Order>)
    ensures Stands(OPENED.(orders := orders), orders, [], None)
  {
  }

  const CHEAP_FILLS := [Fill(0, Buy, 5, 3, 34, 0, 1, 0, 1), Fill(1, Sell, 5, 2, 34, 0, 1, 1, 2)]

  lemma CheapSold()
    ensures Stands(Run(CREATED, CHEAP), [Done(CHEAP_BUY), Done(CHEAP_SELL)], CHEAP_FILLS, Some(Position(1, 0)))
  {
    CheapFigures();
    CheapBought();
    var s, fills := Run(CREATED, CHEAP_BOUGHT), CHEAP_FILLS[..1];
    assert [Done(CHEAP_BUY)][..0] == [];
    assert fills == [Fill(0, Buy, 5, 3, 34, 0, 1, 0, 1)];
    assert fills[0].exec == 0 && !Booked(fills, 1);
    assert SumOf([Done(CHEAP_BUY)], SellHold(5)) == 0;
    hide Run, Notional, Repositioned, Stands, SumOf, Booked;
    PlacesSell(s, [Done(CHEAP_BUY)], fills, Position(3, 100), CHEAP_SELL);
    RunOn(CREATED, CHEAP_BOUGHT, PlaceOrder(CHEAP_SELL));
    var orders := [Done(CHEAP_BUY)] + [NewRow(CHEAP_SELL, 0)];
    FillsWhole(Run(CREATED, CHEAP_BOUGHT + [PlaceOrder(CHEAP_SELL)]), orders, fills, Some(Position(3, 100)), 1, CHEAP_SELL, 0,
               SOLD, Position(1, 0));
    RunOn(CREATED, CHEAP_BOUGHT + [PlaceOrder(CHEAP_SELL)], Filling(1, SOLD));
    assert orders[1 := Done(CHEAP_SELL)] == [Done(CHEAP_BUY), Done(CHEAP_SELL)];
    assert fills + [FillRow(orders[1], 1, SOLD)] == CHEAP_FILLS;
  }

  /** The account holds one share at no cost, nothing was late or out of order, and the page throws. */
  lemma CheapShareHidesThePage()
    ensures Initial(CREATED) && BookedInOrder(Run(CREATED, CHEAP).fills)
    ensures Worthless(Run(CREATED, CHEAP).positions, 5) && CannotView(Run(CREATED, CHEAP))
  {
    OpensAccount();
    CheapSold();
    hide Run;
    var e := Run(CREATED, CHEAP);
    assert Unshowable(e.positions, e.orders, 5);
  }

  // ---- two orders booked in another order than they executed ----

  const FIRST_BUY := Limited(Buy, 10, 100000, 0)
  const NEXT_BUY := Limited(Buy, 5, 300000, 1)
  const LAST_SELL := Limited(Sell, 5, 200000, 2)
  const X0 := Execution(0, 10, 100000, 0, 1, false)
  const X1 := Execution(1, 5, 300000, 0, 2, false)
  const X2 := Execution(2, 5, 200000, 0, 3, false)

  /** A reconciliation pass walks the newest order first, so the sell is booked before the older buy. */
  const BUYS_PLACED := START + [PlaceOrder(FIRST_BUY)] + [PlaceOrder(NEXT_BUY)]
  const SWAPPED_BOUGHT := BUYS_PLACED + [Filling(0, X0)]
  const SWAPPED_SOLD := SWAPPED_BOUGHT + [PlaceOrder(LAST_SELL)] + [Filling(2, X2)]
  const SWAPPED := SWAPPED_SOLD + [Filling(1, X1)]

  const F0 := Fill(0, Buy, 5, 10, 100000, 0, 10000, 0, 1)
  const F1 := Fill(1, Buy, 5, 5, 300000, 0, 15000, 1, 2)
  const F2 := Fill(2, Sell, 5, 5, 200000, 0, 10000, 2, 3)

  lemma SwappedFigures()
    ensures Notional(100000, 10) == 10000 && Notional(300000, 5) == 15000 && Notional(200000, 5) == 10000
    ensures Repositioned(None, Buy, 10, 10000, 0) == Some(Position(10, 1000000))
    ensures Repositioned(Some(Position(10, 1000000)), Sell, 5, 10000, 0) == Some(Position(5, 500000))
    ensures Repositioned(Some(Position(5, 500000)), Buy, 5, 15000, 0) == Some(Position(10, 2000000))
  {
    assert HalfEven(1000000, 100) == 10000 && HalfEven(1500000, 100) == 15000;
    assert HalfEven(5000000, 1000) == 5000;
  }

  lemma PlacesFirst()
    ensures Next(OPENED, PlaceOrder(FIRST_BUY)) == OPENED.(orders := [NewRow(FIRST_BUY, 10000)])
  {
    SwappedFigures();
    PlacesBuy([], FIRST_BUY);
    assert [] + [NewRow(FIRST_BUY, 10000)] == [NewRow(FIRST_BUY, 10000)];
  }

  lemma PlacesNext(first: Order)
    requires first == NewRow(FIRST_BUY, 10000)
    ensures Next(OPENED.(orders := [first]), PlaceOrder(NEXT_BUY)) == OPENED.(orders := [first, NewRow(NEXT_BUY, 15000)])
  {
    SwappedFigures();
    assert [first][..0] == [];
    PlacesBuy([first], NEXT_BUY);
  }

  lemma BuysPlaced()
    ensures Run(CREATED, BUYS_PLACED) == OPENED.(orders := [NewRow(FIRST_BUY, 10000), NewRow(NEXT_BUY, 15000)])
  {
    OpensAccount();
    PlacesFirst();
    PlacesNext(NewRow(FIRST_BUY, 10000));
    hide Run, Next, Stands;
    RunOn(CREATED, START, PlaceOrder(FIRST_BUY));
    RunOn(CREATED, START + [PlaceOrder(FIRST_BUY)], PlaceOrder(NEXT_BUY));
  }

  lemma SwappedBought()
    ensures Stands(Run(CREATED, SWAPPED_BOUGHT), [Done(FIRST_BUY), NewRow(NEXT_BUY, 15000)], [F0], Some(Position(10, 1000000)))
  {
    SwappedFigures();
    BuysPlaced();
    var first, next := NewRow(FIRST_BUY, 10000), NewRow(NEXT_BUY, 15000);
    StandsPlaced([first, next]);
    hide Run, Notional, Repositioned, Stands;
    RunOn(CREATED, BUYS_PLACED, Filling(0, X0));
    FillsWhole(OPENED.(orders := [first, next]), [first, next], [], None, 0, FIRST_BUY, 10000, X0, Position(10, 1000000));
    assert [first, next][0 := Done(FIRST_BUY)] == [Done(FIRST_BUY), next];
    assert [] + [FillRow(first, 0, X0)] == [F0];
  }

  lemma RoomToSell(orders: seq<Order>)
    requires orders == [Done(FIRST_BUY), NewRow(NEXT_BUY, 15000)]
    ensures SumOf(orders, SellHold(5)) == 0 && WithKey(orders, OrderKey, LAST_SELL.key).None?
  {
    assert orders[..1] == [Done(FIRST_BUY)] && [Done(FIRST_BUY)][..0] == [];
    assert SumOf([Done(FIRST_BUY)], SellHold(5)) == 0;
  }

  lemma SwappedSold()
    ensures Stands(Run(CREATED, SWAPPED_SOLD), [Done(FIRST_BUY), NewRow(NEXT_BUY, 15000), Done(LAST_SELL)], [F0, F2],
                   Some(Position(5, 500000)))
  {
    SwappedFigures();
    SwappedBought();
    var orders := [Done(FIRST_BUY), NewRow(NEXT_BUY, 15000)];
    RoomToSell(orders);
    assert [F0][0].exec == 0 && !Booked([F0], 2);
    hide Run, Notional, Repositioned, Stands, SumOf, Booked, WithKey;
    PlacesSell(Run(CREATED, SWAPPED_BOUGHT), orders, [F0], Position(10, 1000000), LAST_SELL);
    RunOn(CREATED, SWAPPED_BOUGHT, PlaceOrder(LAST_SELL));
    var placed := orders + [NewRow(LAST_SELL, 0)];
    FillsWhole(Run(CREATED, SWAPPED_BOUGHT + [PlaceOrder(LAST_SELL)]), placed, [F0], Some(Position(10, 1000000)), 2, LAST_SELL, 0,
               X2, Position(5, 500000));
    RunOn(CREATED, SWAPPED_BOUGHT + [PlaceOrder(LAST_SELL)], Filling(2, X2));
    assert placed[2 := Done(LAST_SELL)] == [Done(FIRST_BUY), NewRow(NEXT_BUY, 15000), Done(LAST_SELL)];
    assert [F0] + [FillRow(placed[2], 2, X2)] == [F0, F2];
  }

  lemma SwappedEnds()
    ensures Run(CREATED, SWAPPED).fills == [F0, F2, F1]
  {
    SwappedFigures();
    SwappedSold();
    var orders := [Done(FIRST_BUY), NewRow(NEXT_BUY, 15000), Done(LAST_SELL)];
    assert [F0, F2][0].exec == 0 && [F0, F2][1].exec == 2 && !Booked([F0, F2], 1);
    RunOn(CREATED, SWAPPED_SOLD, Filling(1, X1));
    hide Run, Notional, Repositioned, Booked;
    FillsWhole(Run(CREATED, SWAPPED_SOLD), orders, [F0, F2], Some(Position(5, 500000)), 1, NEXT_BUY, 15000, X1,
        Position(10, 2000000));
    assert [F0, F2] + [FillRow(orders[1], 1, X1)] == [F0, F2, F1];
  }

  /** Booked one after the other the fills realize 50.00; replayed by execution time, 16.67. */
  lemma PageRealizesDifferently()
    ensures Initial(CREATED) && !BookedInOrder(Run(CREATED, SWAPPED).fills)
    ensures var fills := Run(CREATED, SWAPPED).fills;
      && Tallied(fills).Some? && Tallied(fills).value.realized == 5000
      && Replay(Chronological(fills)).Some? && Replay(Chronological(fills)).value.realized == 1667
  {
    OpensAccount();
    SwappedEnds();
    SwappedTally();
    SwappedReplay();
    assert [F0, F2, F1][1].at > [F0, F2, F1][2].at;
  }

  lemma SwappedTally()
    ensures Tallied([F0, F2, F1]).Some? && Tallied([F0, F2, F1]).value.realized == 5000
  {
    assert HalfEven(5000000, 1000) == 5000;
    assert [F0, F2, F1][..2] == [F0, F2] && [F0, F2][..1] == [F0] && [F0][..0] == [];
    assert TallyOne(Book(map[], 0), F0) == Some(Book(map[5 := Position(10, 1000000)], 0));
    assert Tallied([F0]) == Some(Book(map[5 := Position(10, 1000000)], 0));
    var sold := TallyOne(Book(map[5 := Position(10, 1000000)], 0), F2);
    assert sold.Some? && sold.value.realized == 5000 && sold.value.positions[5] == Position(5, 500000);
    assert Tallied([F0, F2]) == sold;
  }

  lemma SwappedOrder()
    ensures Chronological([F0, F2, F1]) == [F0, F1, F2]
  {
    assert [F0, F2, F1][..2] == [F0, F2] && [F0, F2][..1] == [F0] && [F0][..0] == [];
    assert SortedBy([], FillTime) == [] && [] + [F0] == [F0];
    assert SortedBy([F0], FillTime) == [F0];
    assert [F0] + [F2] == [F0, F2] && [F0] + [F1] == [F0, F1] && [F0, F1] + [F2] == [F0, F1, F2];
    assert SortedBy([F0, F2], FillTime) == [F0, F2];
    assert Inserted([F0], FillTime, F1) == [F0, F1];
  }

  lemma SwappedReplay()
    ensures Replay(Chronological([F0, F2, F1])).Some? && Replay(Chronological([F0, F2, F1])).value.realized == 1667
  {
    SwappedOrder();
    hide Chronological;
    assert HalfEven(12500000, 1500) == 8333;
    assert [F0, F1, F2][..2] == [F0, F1] && [F0, F1][..1] == [F0] && [F0][..0] == [];
    assert ReplayOne(Book(map[], 0), F0) == Some(Book(map[5 := Position(10, 1000000)], 0));
    assert Replay([F0]) == Some(Book(map[5 := Position(10, 1000000)], 0));
    var bought := ReplayOne(Book(map[5 := Position(10, 1000000)], 0), F1);
    assert bought.Some? && bought.value.realized == 0 && bought.value.positions[5] == Position(15, 2500000);
    assert Replay([F0, F1]) == bought;
    assert Replay([F0, F1, F2]) == ReplayOne(bought.value, F2);
  }
}

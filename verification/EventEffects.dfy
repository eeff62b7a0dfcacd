/** What one broker event does to every table, in the figures it carries, and exactly when it is applied. */
module EventEffects {
  import opened Wrappers
  import opened Sums
  import opened MoneyMath
  import opened OrderMachine
  import opened Rows
  import opened Accounting
  import opened Orders
  import opened ExecutionService
  import opened Engine
  import opened Conservation

  function BasisOf(s: State, i: InstrumentId): nat { if i in s.positions then s.positions[i].basis else 0 }

  /** The books can take an execution: something changes hands, a sale is of shares held, no basis turns negative. */
  ghost predicate Bookable(s: State, o: Order, x: Execution, cents: Money) {
    && 0 < x.qty && 0 < cents
    && (o.side.Sell? ==> x.qty <= HeldQty(s, o.instrument))
    && (o.side.Buy? ==> 0 <= BasisOf(s, o.instrument) + 100 * (cents + x.fee))
  }

  /** The position an execution leaves: a buy adds its whole cost, a sale takes its part of the basis. */
  ghost predicate PositionAfter(s: State, o: Order, x: Execution, cents: Money, p: Position) {
    var held, basis := HeldQty(s, o.instrument), BasisOf(s, o.instrument);
    match o.side
    case Buy => p.qty == held + x.qty && p.basis == basis + 100 * (cents + x.fee)
    case Sell =>
      && p.qty == held - x.qty && p.basis % 100 == 0
      && (if p.qty == 0 then p.basis == 0
          else 0 - held <= 2 * ((basis - p.basis) / 100 * held - basis / 100 * x.qty) <= held)
  }

  /** An execution booked: its fills row, its one or two ledger entries, its cash, and its position. */
  ghost predicate ExecutionBooked(s: State, id: OrderId, x: Execution, cents: Money, next: State)
    requires id < |s.orders|
  {
    var o := s.orders[id];
    && next.fills == s.fills + [Fill(id, o.side, o.instrument, x.qty, x.price, x.fee, cents, x.id, x.at)]
    && next.cash == s.cash + (if o.side.Buy? then -cents else cents) - x.fee
    && next.ledger == s.ledger + [Entry(TradeEntry, if o.side.Buy? then -cents else cents, ToFill(x.id))]
                               + (if x.fee == 0 then [] else [Entry(FeeEntry, -x.fee, ToFill(x.id))])
    && o.instrument in next.positions && next.positions == s.positions[o.instrument := next.positions[o.instrument]]
    && PositionAfter(s, o, x, cents, next.positions[o.instrument])
  }

  lemma SaleTakes(current: Position, qty: nat, proceeds: Money, fee: Money)
    requires current.basis % 100 == 0 && 0 < qty <= current.qty
    ensures SellFill(Some(current), qty, proceeds, fee).Some?
    ensures var sale := SellFill(Some(current), qty, proceeds, fee).value;
      && sale.position.qty == current.qty - qty && sale.position.basis % 100 == 0
      && (sale.position.qty == 0 ==> sale.position.basis == 0)
      && var taken := (current.basis - sale.position.basis) / 100;
         0 - current.qty <= 2 * (taken * current.qty - current.basis / 100 * qty) <= current.qty
  {
    hide Allocate;
    SaleBalances(current, qty, proceeds, fee);
    var cents := current.basis / 100;
    assert current.basis == 100 * cents;
    AllocateWholeCents(cents, qty, current.qty);
    var share := Allocate(current.basis, qty, current.qty).value.share;
    assert SellFill(Some(current), qty, proceeds, fee).value.position.basis == 100 * (cents - share);
    assert (current.basis - 100 * (cents - share)) / 100 == share;
  }

  lemma PositionIs(s: State, o: Order, x: Execution, cents: Money)
    requires WholeCents(s.positions) && 0 < x.qty && 0 < cents
    ensures var p := Repositioned(Lookup(s.positions, o.instrument), o.side, x.qty, cents, x.fee);
      && (p.Some? <==> Bookable(s, o, x, cents))
      && (p.Some? ==> PositionAfter(s, o, x, cents, p.value))
  {
    if o.side.Sell? && x.qty <= HeldQty(s, o.instrument) {
      SaleTakes(s.positions[o.instrument], x.qty, cents, x.fee);
      hide SellFill;
    }
  }

  /** An execution is booked exactly when it is new and the books can take it. */
  lemma EffectsIff(s: State, id: OrderId, x: Execution, cents: Money)
    requires id < |s.orders| && WholeCents(s.positions) && IsHalfEven(x.price * x.qty, 100, cents)
    ensures FillEffects(s, id, x).Commit? <==> !Booked(s.fills, x.id) && Bookable(s, s.orders[id], x, cents)
    ensures FillEffects(s, id, x).Commit? ==>
      var next := FillEffects(s, id, x).state;
      && ExecutionBooked(s, id, x, cents, next)
      && next == s.(fills := next.fills, cash := next.cash, ledger := next.ledger, positions := next.positions)
  {
    HalfEvenUnique(x.price * x.qty, 100, cents, Notional(x.price, x.qty));
    hide Repositioned, PositionAfter, Bookable, Booked, IsHalfEven, WholeCents;
    var o := s.orders[id];
    NothingToBook(s, o, x, cents);
    if 0 < x.qty && 0 < cents { PositionIs(s, o, x, cents); }
  }

  lemma NothingToBook(s: State, o: Order, x: Execution, cents: Money)
    ensures Bookable(s, o, x, cents) ==> 0 < x.qty && 0 < cents
  {
  }

  /** What an event says of an order's quantity. */
  function Size(e: Event): nat { if e.IsFill() && e.execution.Some? then e.execution.value.qty else 0 }

  /** Delivered before: its envelope was seen, or its execution booked. */
  ghost predicate Known(s: State, e: Event) {
    || (e.ext.Some? && Seen(s.audit, e.ext.value))
    || (e.IsFill() && e.execution.Some? && Booked(s.fills, e.execution.value.id))
  }

  /**
   * A broker event commits exactly when it names an order, a fill brings its execution, and it is
   * known already or is not refused, its execution bookable.
   */
  lemma EventCommitsIff(s: State, e: Event, cents: Money)
    requires WholeCents(s.positions) && OrdersOk(s)
    requires e.execution.Some? ==> IsHalfEven(e.execution.value.price * e.execution.value.qty, 100, cents)
    ensures EventApplied(s, e).Commit? <==>
      && e.order < |s.orders| && (e.IsFill() ==> e.execution.Some?)
      && (Known(s, e) ||
           (&& !Refused(s.orders[e.order], e.kind, Size(e))
            && (e.IsFill() ==> Bookable(s, s.orders[e.order], e.execution.value, cents))))
    ensures EventApplied(s, e).Commit? && Known(s, e) ==> EventApplied(s, e).state == s
    ensures EventApplied(s, e).Commit? && !Known(s, e) ==>
      var o, next := s.orders[e.order], EventApplied(s, e).state;
      && |next.orders| == |s.orders| && RowAfter(o, e.kind, Size(e), next.orders[e.order])
      && s.audit <= next.audit && Audits(next.audit[|s.audit|..], e.order, o, e.kind, FromBroker, e.ext, Size(e))
      && next == s.(audit := next.audit, orders := s.orders[e.order := next.orders[e.order]], fills := next.fills,
                    cash := next.cash, ledger := next.ledger, positions := next.positions)
      && (if e.IsFill() then ExecutionBooked(s, e.order, e.execution.value, cents, next)
          else next.fills == s.fills && next.cash == s.cash && next.ledger == s.ledger && next.positions == s.positions)
  {
    hide Transitioned, FillEffects, Seen, Booked, Refused, RowAfter, Audits, Bookable, IsHalfEven, OrderOk, WholeCents;
    if e.order < |s.orders| && (e.IsFill() ==> e.execution.Some?) {
      var fill := if e.IsFill() then e.execution else None;
      if Known(s, e) {
        KnownIsSkipped(s, e);
      } else {
        TransitionSays(s, e.order, e.kind, FromBroker, e.ext, fill);
        var spec := Transitioned(s, e.order, e.kind, FromBroker, e.ext, fill);
        if e.IsFill() && spec.Applied? {
          RowAsked(s, spec.state, e);
          EffectsIff(spec.state, e.order, e.execution.value, cents);
          SameBooks(s, spec.state, e.order, e.execution.value, cents);
        }
      }
    }
  }

  lemma KnownIsSkipped(s: State, e: Event)
    requires Known(s, e) && e.order < |s.orders| && (e.IsFill() ==> e.execution.Some?)
    ensures EventApplied(s, e) == Commit(s)
  {
    hide Advance;
  }

  lemma RowAsked(s: State, mid: State, e: Event)
    requires e.order < |s.orders| == |mid.orders| && RowAfter(s.orders[e.order], e.kind, Size(e), mid.orders[e.order])
    ensures mid.orders[e.order].side == s.orders[e.order].side && mid.orders[e.order].instrument == s.orders[e.order].instrument
  {
    hide MayCome, HasRoom;
  }

  /** Booking depends on the order's side and instrument alone. */
  lemma SameBooks(s: State, mid: State, id: OrderId, x: Execution, cents: Money)
    requires id < |s.orders| == |mid.orders|
    requires mid.orders[id].side == s.orders[id].side && mid.orders[id].instrument == s.orders[id].instrument
    requires mid == s.(audit := mid.audit, orders := mid.orders)
    ensures Bookable(mid, mid.orders[id], x, cents) <==> Bookable(s, s.orders[id], x, cents)
    ensures forall next :: ExecutionBooked(mid, id, x, cents, next) <==> ExecutionBooked(s, id, x, cents, next)
  {
  }
}

/** Placement with reservations, and the one way an order record changes. */
module Orders {
  import opened Wrappers
  import opened Sums
  import opened MoneyMath
  import opened OrderMachine
  import opened Rows

  datatype NewOrder = NewOrder(side: Side, typ: OrderType, instrument: InstrumentId, tradable: bool,
                               qty: nat, limit: Option<Px>, refPrice: Option<Px>, key: Key)

  predicate ShapeOk(n: NewOrder) {
    0 < n.qty && (n.typ.Limit? <==> n.limit.Some?)
  }

  /** The cash a new order sets aside; None where the source throws. */
  function Reservation(n: NewOrder, buffer: Ratio): Option<Money>
    requires ShapeOk(n)
  {
    if n.side.Sell? then Some(0)
    else if n.typ.Limit? then Some(Notional(n.limit.value, n.qty))
    else if n.refPrice.None? || buffer.scale <= buffer.num then None
    else Some(ReserveWithBuffer(n.refPrice.value, n.qty, buffer))
  }

  function NewRow(n: NewOrder, reserved: Money): Order {
    Order(n.side, n.typ, n.instrument, n.qty, n.limit, n.key, PendingSubmission, 0, reserved, false)
  }

  function Sellable(s: State, instrument: InstrumentId): nat {
    var free := HeldQty(s, instrument) - SumOf(s.orders, SellHold(instrument));
    if 0 <= free then free else 0
  }

  /** OrdersService.place. */
  function Placed(s: State, n: NewOrder): Outcome<State> {
    if !ShapeOk(n) || !s.status.Active? || (n.side.Buy? && !n.tradable) then Abort
    else if WithKey(s.orders, OrderKey, n.key).Some? then Commit(s)
    else
      match Reservation(n, s.cfg.buffer)
      case None => Abort
      case Some(reserved) =>
        if n.side.Buy? && FreeCash(s) < reserved then Abort
        else if n.side.Sell? && Sellable(s, n.instrument) < n.qty then Abort
        else Commit(s.(orders := s.orders + [NewRow(n, reserved)]))
  }

  method Place(tx: Database, n: NewOrder) returns (placed: Option<OrderId>)
    modifies tx
    ensures tx.Contents() == match Placed(old(tx.Contents()), n) case Commit(s) => s case Abort => old(tx.Contents())
    ensures placed.Some? <==> Placed(old(tx.Contents()), n).Commit?
    ensures placed.Some? ==> placed.value < |tx.orders| && tx.orders[placed.value].key == n.key
    ensures (exists o <- old(tx.orders) :: o.key == n.key) ==> tx.Contents() == old(tx.Contents())
  {
    if n.qty == 0 || (n.typ.Limit? && n.limit.None?) || (n.typ.Market? && n.limit.Some?) { return None; }
    if !tx.status.Active? || (n.side.Buy? && !n.tradable) { return None; }
    var existing := WithKey(tx.orders, OrderKey, n.key);
    if existing.Some? { return existing; }
    var reserved := Reservation(n, tx.cfg.buffer);
    if reserved.None? { return None; }
    if n.side.Buy? {
      var alreadyReserved := SumOf(tx.orders, BuyHold);
      var withdrawalHolds := SumOf(tx.transfers, WithdrawalHold);
      if tx.cash - alreadyReserved - withdrawalHolds < reserved.value { return None; }
    } else {
      var held := HeldQty(tx.Contents(), n.instrument);
      var open := SumOf(tx.orders, SellHold(n.instrument));
      var sellable := if held >= open then held - open else 0;
      if sellable < n.qty { return None; }
    }
    tx.orders := tx.orders + [NewRow(n, reserved.value)];
    return Some(|tx.orders| - 1);
  }

  /** What a new order has to set aside, from the order itself. */
  ghost predicate Reserves(n: NewOrder, buffer: Ratio, cents: Money) {
    if n.side.Sell? then cents == 0
    else if n.limit.Some? then IsHalfEven(n.limit.value * n.qty, 100, cents)
    else
      && n.refPrice.Some? && buffer.num < buffer.scale
      && IsHalfEven(n.refPrice.value * n.qty * (buffer.scale + buffer.num), 100 * buffer.scale, cents)
  }

  /** That is one figure, and a market BUY's is never below what it costs at the reference price. */
  lemma ReservationIs(n: NewOrder, buffer: Ratio, cents: Money)
    requires ShapeOk(n)
    ensures Reservation(n, buffer) == Some(cents) <==> Reserves(n, buffer, cents)
    ensures Reservation(n, buffer).None? <==> n.side.Buy? && n.typ.Market? && (n.refPrice.None? || buffer.scale <= buffer.num)
    ensures n.side.Buy? && n.typ.Market? && Reserves(n, buffer, cents) ==> Notional(n.refPrice.value, n.qty) <= cents
  {
    if n.side.Buy? && n.limit.Some? && Reserves(n, buffer, cents) {
      HalfEvenUnique(n.limit.value * n.qty, 100, cents, Notional(n.limit.value, n.qty));
    }
    if n.side.Buy? && n.limit.None? && n.refPrice.Some? && buffer.num < buffer.scale {
      var unrounded, scale := n.refPrice.value * n.qty * (buffer.scale + buffer.num), 100 * buffer.scale;
      BufferCoversNotional(n.refPrice.value, n.qty, buffer);
      if IsHalfEven(unrounded, scale, cents) {
        HalfEvenUnique(unrounded, scale, cents, ReserveWithBuffer(n.refPrice.value, n.qty, buffer));
      }
    }
  }

  /** What placement asks of an order before it looks at cash or shares. */
  ghost predicate Presentable(s: State, n: NewOrder) {
    && s.status.Active? && 0 < n.qty && (n.typ.Limit? <==> n.limit.Some?)
    && (n.side.Buy? ==> n.tradable)
    && (n.side.Buy? && n.typ.Market? ==> n.refPrice.Some? && s.cfg.buffer.num < s.cfg.buffer.scale)
  }

  /**
   * A new order is accepted exactly when it is presentable and what it sets aside is there: for a
   * BUY cash not reserved by open buys nor asked for by pending withdrawals, for a SELL shares not
   * promised by open sells. Its row then holds back exactly that.
   */
  lemma NewOrderIff(s: State, n: NewOrder, cents: Money)
    requires forall o <- s.orders :: o.key != n.key
    requires Presentable(s, n) ==> Reserves(n, s.cfg.buffer, cents)
    ensures Placed(s, n).Commit? <==>
      && Presentable(s, n)
      && (n.side.Buy? ==> cents + SumOf(Where(s.orders, OpenBuy), ReservedCash)
                                + SumOf(Where(s.transfers, PendingWithdrawal), AmountAsked) <= s.cash)
      && (n.side.Sell? ==> n.qty + SumOf(Where(s.orders, OpenSell(n.instrument)), Remainder) <= HeldQty(s, n.instrument))
    ensures Placed(s, n).Commit? ==> Placed(s, n).state == s.(orders := s.orders +
      [Order(n.side, n.typ, n.instrument, n.qty, n.limit, n.key, PendingSubmission, 0, cents, false)])
  {
    hide SumOf, Where, Reserves, Reservation;
    BuyingPowerIs(s);
    PromisedIs(s.orders, n.instrument);
    if ShapeOk(n) { ReservationIs(n, s.cfg.buffer, cents); }
  }

  /** The audit rows of the steps a plan inferred. */
  function InferredRows(id: OrderId, steps: seq<Step>): seq<AuditRow> {
    if steps == [] then []
    else
      var last := steps[|steps| - 1];
      InferredRows(id, steps[..|steps| - 1]) +
      if last.inferred then [AuditRow(id, OrderAccepted, last.from, Some(last.to), Inferred, None)] else []
  }

  function MainRow(o: Order, id: OrderId, kind: EventKind, source: Source, ext: Option<EnvelopeId>,
                   steps: seq<Step>): AuditRow {
    AuditRow(id, kind, o.state, if steps == [] then None else Some(steps[|steps| - 1].to), source, ext)
  }

  datatype Transition = Throws | Duplicate | Applied(state: State)

  /** OrdersService.applyTransition. */
  function Transitioned(s: State, id: OrderId, kind: EventKind, source: Source,
                        ext: Option<EnvelopeId>, fill: Option<Execution>): Transition
    requires id < |s.orders|
  {
    if ext.Some? && Seen(s.audit, ext.value) then Duplicate
    else
      var o := s.orders[id];
      match Advance(o, kind, fill)
      case Illegal => Throws
      case AuditOnly =>
        Applied(s.(audit := s.audit + [MainRow(o, id, kind, source, ext, [])],
                   orders := s.orders[id := o.(needsAttention := true)]))
      case Moved(steps, next) =>
        Applied(s.(audit := s.audit + [MainRow(o, id, kind, source, ext, steps)] + InferredRows(id, steps),
                   orders := s.orders[id := next]))
  }

  /** Walk the planned steps, inserting an audit row for each inferred one. */
  method RecordSteps(tx: Database, id: OrderId, current: OrderState, steps: seq<Step>) returns (state: OrderState)
    modifies tx
    ensures tx.Contents() == old(tx.Contents()).(audit := old(tx.audit) + InferredRows(id, steps))
    ensures state == if steps == [] then current else steps[|steps| - 1].to
  {
    state := current;
    var i := 0;
    while i < |steps|
      invariant i <= |steps|
      invariant state == if i == 0 then current else steps[i - 1].to
      invariant tx.Contents() == old(tx.Contents()).(audit := old(tx.audit) + InferredRows(id, steps[..i]))
    {
      assert steps[..i + 1][..i] == steps[..i];
      if steps[i].inferred {
        tx.audit := tx.audit + [AuditRow(id, OrderAccepted, steps[i].from, Some(steps[i].to), Inferred, None)];
      }
      state, i := steps[i].to, i + 1;
    }
    assert steps[..i] == steps;
  }

  /** The steps, then the guards on the filled quantity, then the order row. */
  method MoveOrder(tx: Database, id: OrderId, steps: seq<Step>, fill: Option<Execution>) returns (ok: bool)
    requires id < |tx.orders|
    modifies tx
    ensures ok <==> Walked(old(tx.orders)[id], steps, fill).Some?
    ensures ok ==> tx.Contents() == old(tx.Contents()).(
      audit := old(tx.audit) + InferredRows(id, steps),
      orders := old(tx.orders)[id := Walked(old(tx.orders)[id], steps, fill).value])
  {
    var order := tx.orders[id];
    var state := RecordSteps(tx, id, order.state, steps);
    var newFilled := order.filledQty + if fill.Some? then fill.value.qty else 0;
    if order.qty < newFilled { return false; }
    if state.Filled? && newFilled != order.qty { return false; }
    var reservedCash := NextReservation(order, state, newFilled, fill.Some? && fill.value.tieUp);
    tx.orders := tx.orders[id := order.(state := state, filledQty := newFilled, reservedCash := reservedCash)];
    return true;
  }

  datatype Answer = Threw | WasDuplicate | Done

  ghost predicate Reports(answer: Answer, spec: Transition, before: State, after: State) {
    match spec
    case Throws => answer.Threw?
    case Duplicate => answer.WasDuplicate? && after == before
    case Applied(next) => answer.Done? && after == next
  }

  /** The transition of an event not seen before, by what the plan says. */
  lemma FirstSeen(s: State, id: OrderId, kind: EventKind, source: Source, ext: Option<EnvelopeId>,
                  fill: Option<Execution>)
    requires id < |s.orders| && (ext.Some? ==> !Seen(s.audit, ext.value))
    ensures var o, spec := s.orders[id], Transitioned(s, id, kind, source, ext, fill);
      if kind.UnknownVendorStatus? || (Plan(o.state, kind).None? && o.state.Terminal()) then
        spec == Applied(s.(audit := s.audit + [MainRow(o, id, kind, source, ext, [])],
                           orders := s.orders[id := o.(needsAttention := true)]))
      else if Plan(o.state, kind).None? then spec.Throws?
      else
        var steps := Plan(o.state, kind).value;
        if Walked(o, steps, fill).None? then spec.Throws?
        else spec == Applied(s.(audit := s.audit + [MainRow(o, id, kind, source, ext, steps)] + InferredRows(id, steps),
                                orders := s.orders[id := Walked(o, steps, fill).value]))
  {
    hide Seen, Plan, Walked, InferredRows, MainRow;
  }

  /** The caller owns the transaction, so on a throw the tables are whatever had been written. */
  method ApplyTransition(tx: Database, id: OrderId, kind: EventKind, source: Source,
                         ext: Option<EnvelopeId>, fill: Option<Execution>) returns (answer: Answer)
    requires id < |tx.orders|
    modifies tx
    ensures Reports(answer, Transitioned(old(tx.Contents()), id, kind, source, ext, fill), old(tx.Contents()), tx.Contents())
  {
    hide Seen, Plan, Walked, InferredRows, MainRow, Advance;
    if ext.Some? && Seen(tx.audit, ext.value) { return WasDuplicate; }
    FirstSeen(tx.Contents(), id, kind, source, ext, fill);
    var order := tx.orders[id];
    var steps: seq<Step> := [];
    var auditOnly := kind.UnknownVendorStatus?;
    if !auditOnly {
      var plan := Plan(order.state, kind);
      if plan.Some? {
        steps := plan.value;
      } else if order.state.Terminal() {
        auditOnly := true;
      } else {
        return Threw;
      }
    }
    tx.audit := tx.audit + [MainRow(order, id, kind, source, ext, steps)];
    if auditOnly {
      tx.orders := tx.orders[id := order.(needsAttention := true)];
      return Done;
    }
    var moved := MoveOrder(tx, id, steps, fill);
    return if moved then Done else Threw;
  }

  /** OrdersService.requestCancel: the local cancellation intent. */
  function CancelRequested(s: State, id: OrderId): Outcome<State> {
    if |s.orders| <= id then Abort
    else if s.orders[id].state.Terminal() || s.orders[id].state.CancelPending? then Commit(s)
    else if s.orders[id].state.PendingSubmission? then Abort
    else
      match Transitioned(s, id, OrderCancelPending, Local, None, None)
      case Throws => Abort
      case Duplicate => Abort
      case Applied(next) => Commit(next)
  }

  method RequestCancel(tx: Database, id: OrderId) returns (ok: bool)
    modifies tx
    ensures tx.Contents() == match CancelRequested(old(tx.Contents()), id) case Commit(s) => s case Abort => old(tx.Contents())
    ensures ok <==> CancelRequested(old(tx.Contents()), id).Commit?
  {
    if |tx.orders| <= id { return false; }
    var state := tx.orders[id].state;
    if state.Terminal() || state.CancelPending? { return true; }
    if state.PendingSubmission? { return false; }
    var before := tx.Contents();
    var answer := ApplyTransition(tx, id, OrderCancelPending, Local, None, None);
    if answer.Done? { return true; }
    tx.Rollback(before);
    return false;
  }

  /** A cancel intent on a working order is never refused and never a duplicate. */
  lemma CancelIntentSticks(s: State, id: OrderId)
    requires id < |s.orders| && OrderOk(s.orders[id])
    ensures CancelRequested(s, id).Commit? <==> !s.orders[id].state.PendingSubmission?
    ensures CancelRequested(s, id).Commit? ==>
      var o := CancelRequested(s, id).state.orders[id];
      && (s.orders[id].state.Terminal() ==> o == s.orders[id])
      && (s.orders[id].state.Open() ==> o == s.orders[id].(state := CancelPending))
  {
    var o := s.orders[id];
    PlanIsLegal(o.state, OrderCancelPending);
    AdvanceKeepsOrder(o, OrderCancelPending, None);
  }

  /** The audit rows an event leaves: its own, and the acceptance a fill implies when it overtakes it. */
  ghost predicate Audits(rows: seq<AuditRow>, id: OrderId, o: Order, kind: EventKind, source: Source,
                         ext: Option<EnvelopeId>, size: nat) {
    && rows != []
    && rows[0] == AuditRow(id, kind, o.state, rows[0].to, source, ext)
    && (rows[0].to.Some? <==> Takes(o, kind, size)) && (rows[0].to.Some? ==> Arrives(kind, rows[0].to.value))
    && rows[1..] ==
         if kind.IsFill() && (o.state.PendingSubmission? || o.state.Acknowledged?) then
           [AuditRow(id, OrderAccepted, o.state, Some(Accepted), Inferred, None)]
         else []
  }

  lemma InferredRowsOf(id: OrderId, steps: seq<Step>)
    requires |steps| <= 2 && (|steps| == 2 ==> steps[0].inferred) && (steps != [] ==> !steps[|steps| - 1].inferred)
    ensures InferredRows(id, steps) ==
      if |steps| == 2 then [AuditRow(id, OrderAccepted, steps[0].from, Some(steps[0].to), Inferred, None)] else []
  {
    if |steps| == 2 {
      assert steps[..1] == [steps[0]] && steps[..1][..0] == [];
      assert InferredRows(id, []) == [];
      assert InferredRows(id, [steps[0]]) == [AuditRow(id, OrderAccepted, steps[0].from, Some(steps[0].to), Inferred, None)];
    } else if |steps| == 1 {
      assert steps[..0] == [] && InferredRows(id, []) == [];
    }
  }

  /** What an event leaves of the order row: moved, as it was, or flagged. */
  ghost predicate RowAfter(o: Order, kind: EventKind, size: nat, row: Order) {
    if Takes(o, kind, size) then
      && Arrives(kind, row.state) && row.filledQty == o.filledQty + size
      && row == o.(state := row.state, filledQty := row.filledQty, reservedCash := row.reservedCash)
    else if Arrives(kind, o.state) && !kind.IsFill() then row == o
    else row == o.(needsAttention := true)
  }

  /** An event that is neither news, nor an echo, nor too late, nor unknown. */
  ghost predicate Refused(o: Order, kind: EventKind, size: nat) {
    !Takes(o, kind, size) && !(Arrives(kind, o.state) && !kind.IsFill()) && o.state.Open() && !kind.UnknownVendorStatus?
  }

  lemma AdvanceSays(o: Order, kind: EventKind, fill: Option<Execution>)
    requires OrderOk(o) && (fill.Some? <==> kind.IsFill())
    ensures var size, r := if fill.Some? then fill.value.qty else 0, Advance(o, kind, fill);
      && (r.Illegal? <==> Refused(o, kind, size))
      && (r.AuditOnly? ==> RowAfter(o, kind, size, o.(needsAttention := true)))
      && (r.Moved? ==> RowAfter(o, kind, size, r.order))
  {
    hide Advance, HasRoom, MayCome, Arrives;
    WhoTakesWhat(o, kind, fill);
    AdvanceKeepsOrder(o, kind, fill);
    FillsAreNews(o.state, kind);
  }

  lemma AuditsSay(o: Order, id: OrderId, kind: EventKind, source: Source, ext: Option<EnvelopeId>, fill: Option<Execution>)
    requires OrderOk(o) && (fill.Some? <==> kind.IsFill()) && !Advance(o, kind, fill).Illegal?
    ensures var size, r := if fill.Some? then fill.value.qty else 0, Advance(o, kind, fill);
      var steps := if r.Moved? then r.steps else [];
      Audits([MainRow(o, id, kind, source, ext, steps)] + InferredRows(id, steps), id, o, kind, source, ext, size)
  {
    hide Advance, InferredRows, HasRoom, MayCome, Arrives;
    WhoTakesWhat(o, kind, fill);
    FillsAreNews(o.state, kind);
    var r := Advance(o, kind, fill);
    if r.Moved? { InferredAcceptance(o, kind, fill); }
    InferredRowsOf(id, if r.Moved? then r.steps else []);
  }

  lemma FillsAreNews(state: OrderState, kind: EventKind)
    ensures kind.IsFill() ==> (MayCome(state, kind) <==> state.Open())
    ensures kind.UnknownVendorStatus? ==> !MayCome(state, kind) && !Arrives(kind, state)
    ensures MayCome(state, kind) ==> state.Open()
  {
  }

  /**
   * applyTransition over states and events: a new envelope moves the order exactly when the order
   * takes the event, leaves exactly the audit rows that say so, and throws exactly when refused.
   */
  lemma TransitionSays(s: State, id: OrderId, kind: EventKind, source: Source, ext: Option<EnvelopeId>,
                       fill: Option<Execution>)
    requires id < |s.orders| && OrderOk(s.orders[id]) && (fill.Some? <==> kind.IsFill())
    requires ext.Some? ==> !Seen(s.audit, ext.value)
    ensures var size, spec := if fill.Some? then fill.value.qty else 0, Transitioned(s, id, kind, source, ext, fill);
      if Refused(s.orders[id], kind, size) then spec.Throws?
      else
        && spec.Applied? && |spec.state.orders| == |s.orders|
        && s.audit <= spec.state.audit && Audits(spec.state.audit[|s.audit|..], id, s.orders[id], kind, source, ext, size)
        && RowAfter(s.orders[id], kind, size, spec.state.orders[id])
        && spec.state == s.(audit := spec.state.audit, orders := s.orders[id := spec.state.orders[id]])
  {
    hide Seen, Advance, InferredRows, MainRow, Refused, RowAfter, Audits;
    var o := s.orders[id];
    AdvanceSays(o, kind, fill);
    var r, spec := Advance(o, kind, fill), Transitioned(s, id, kind, source, ext, fill);
    if !r.Illegal? {
      var steps := if r.Moved? then r.steps else [];
      AuditsSay(o, id, kind, source, ext, fill);
      InferredRowsOf(id, []);
      assert spec.state.audit[|s.audit|..] == [MainRow(o, id, kind, source, ext, steps)] + InferredRows(id, steps);
    }
  }
}

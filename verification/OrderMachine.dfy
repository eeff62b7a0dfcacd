/** The canonical order state machine, and what one accepted event does to an order record. */
module OrderMachine {
  import opened Wrappers
  import opened MoneyMath

  datatype OrderState =
    | PendingSubmission | Acknowledged | Accepted | PartiallyFilled | Filled
    | CancelPending | Cancelled | Rejected | Expired | SubmitFailed
  {
    predicate Terminal() { Filled? || Cancelled? || Rejected? || Expired? || SubmitFailed? }
    predicate Open() { !Terminal() }
  }

  datatype EventKind =
    | OrderAcknowledged | OrderAccepted | OrderPartiallyFilled | OrderFilled | OrderCancelPending
    | OrderCancelled | OrderRejected | OrderExpired | OrderSubmitFailed | UnknownVendorStatus
  {
    predicate IsFill() { OrderPartiallyFilled? || OrderFilled? }

    /** The state this event asks for. */
    function Target(): OrderState
      requires !UnknownVendorStatus?
    {
      match this
      case OrderAcknowledged => Acknowledged
      case OrderAccepted => Accepted
      case OrderPartiallyFilled => PartiallyFilled
      case OrderFilled => Filled
      case OrderCancelPending => CancelPending
      case OrderCancelled => Cancelled
      case OrderRejected => Rejected
      case OrderExpired => Expired
      case OrderSubmitFailed => SubmitFailed
    }
  }

  /** Direct transitions. */
  function Legal(from: OrderState): set<OrderState> {
    match from
    case PendingSubmission => {Acknowledged, Accepted, PartiallyFilled, Filled, Rejected, SubmitFailed}
    case Acknowledged => {Accepted, PartiallyFilled, Filled, CancelPending, Cancelled, Rejected, Expired}
    case Accepted => {PartiallyFilled, Filled, CancelPending, Cancelled, Rejected, Expired}
    case PartiallyFilled => {PartiallyFilled, Filled, CancelPending, Cancelled, Expired}
    case CancelPending => {PartiallyFilled, Filled, Cancelled, Expired}
    case _ => {}
  }

  /** `inferred` marks the acceptance a fill implies when it overtakes it. */
  datatype Step = Step(from: OrderState, to: OrderState, inferred: bool)

  /** planTransitions: None where the source throws. */
  function Plan(current: OrderState, kind: EventKind): Option<seq<Step>> {
    if kind.UnknownVendorStatus? then Some([])
    else
      var target := kind.Target();
      if target == current && !kind.IsFill() then Some([])
      else if kind.IsFill() && (current.PendingSubmission? || current.Acknowledged?) then
        Some([Step(current, Accepted, true), Step(Accepted, target, false)])
      else if target in Legal(current) then Some([Step(current, target, false)])
      else None
  }

  /** Every planned step follows the table, and the steps join up from the current state. */
  ghost predicate Connected(current: OrderState, steps: seq<Step>) {
    && (forall i | 0 <= i < |steps| :: steps[i].to in Legal(steps[i].from))
    && (forall i | 0 <= i < |steps| :: steps[i].from == if i == 0 then current else steps[i - 1].to)
  }

  /**
   * A plan is a legal path to the event's target, and its end is also a single legal edge from
   * where the order stood; planning fails exactly when the table has no such edge and the event
   * is not an echo of the current state.
   */
  lemma PlanIsLegal(current: OrderState, kind: EventKind)
    requires !kind.UnknownVendorStatus?
    ensures Plan(current, kind).None? <==>
      kind.Target() !in Legal(current) && (kind.Target() != current || kind.IsFill())
    ensures Plan(current, kind).Some? ==>
      var steps := Plan(current, kind).value;
      && Connected(current, steps)
      && (steps == [] <==> kind.Target() == current && !kind.IsFill())
      && (steps != [] ==> steps[|steps| - 1].to == kind.Target() && kind.Target() in Legal(current))
  {
  }

  /** Terminal states have no exit, whatever arrives. */
  lemma TerminalAdmitsNothing(current: OrderState, kind: EventKind)
    requires current.Terminal()
    ensures Plan(current, kind).None? || Plan(current, kind) == Some([])
  {
  }

  datatype Side = Buy | Sell
  datatype OrderType = Market | Limit

  type InstrumentId = nat
  type Key = nat
  type ExecId = nat

  /** An order row: what was asked, and what has happened to it. */
  datatype Order = Order(
    side: Side, typ: OrderType, instrument: InstrumentId, qty: nat, limit: Option<Px>, key: Key,
    state: OrderState, filledQty: nat, reservedCash: Money, needsAttention: bool)

  /** The per-execution part of a fill event; `at` is the venue's time, tieUp is explained at ScaledReservation. */
  datatype Execution = Execution(id: ExecId, qty: nat, price: Px, fee: Money, at: int, tieUp: bool)

  /** What is left of a BUY's reservation once `filled` shares are done and the order is in `state`. */
  function NextReservation(o: Order, state: OrderState, filled: nat, tieUp: bool): (cents: Money)
    requires o.filledQty <= filled <= o.qty
    ensures o.side.Sell? || state.Terminal() ==> cents == 0
    ensures 0 <= o.reservedCash ==> 0 <= cents
    ensures o.side.Buy? && state.Open() && filled == 0 ==> cents == o.reservedCash
    ensures o.side.Buy? && state.Open() && 0 < filled ==>
      var before, after := o.qty - o.filledQty, o.qty - filled;
      if after == 0 then cents == 0 else -before <= 2 * (cents * before - o.reservedCash * after) <= before
  {
    if o.side.Sell? then 0
    else if state.Terminal() then 0
    else if filled == 0 || o.qty == 0 then o.reservedCash
    else if filled == o.qty then 0
    else
      if 0 <= o.reservedCash then
        ScaledKeepsSign(o.reservedCash, o.qty - o.filledQty, o.qty - filled, tieUp);
        ScaledReservation(o.reservedCash, o.qty - o.filledQty, o.qty - filled, tieUp)
      else
        ScaledReservation(o.reservedCash, o.qty - o.filledQty, o.qty - filled, tieUp)
  }

  /** The outcome of an event for one order, before anything is written. */
  datatype Advanced = Illegal | AuditOnly | Moved(steps: seq<Step>, order: Order)

  /** The order after the planned steps, its filled quantity and reservation recomputed; None where a guard throws. */
  function Walked(o: Order, steps: seq<Step>, fill: Option<Execution>): Option<Order> {
    var state := if steps == [] then o.state else steps[|steps| - 1].to;
    var filled := o.filledQty + if fill.Some? then fill.value.qty else 0;
    var tieUp := fill.Some? && fill.value.tieUp;
    if o.qty < filled || (state.Filled? && filled != o.qty) then None
    else Some(o.(state := state, filledQty := filled, reservedCash := NextReservation(o, state, filled, tieUp)))
  }

  /** What applyTransition decides: throw, keep an audit row only, or move the order along its plan. */
  function Advance(o: Order, kind: EventKind, fill: Option<Execution>): Advanced {
    if kind.UnknownVendorStatus? then AuditOnly
    else match Plan(o.state, kind)
      case None => if o.state.Terminal() then AuditOnly else Illegal
      case Some(steps) =>
        match Walked(o, steps, fill)
        case None => Illegal
        case Some(next) => Moved(steps, next)
  }

  /** What every stored order keeps. */
  ghost predicate OrderOk(o: Order) {
    && 0 < o.qty && o.filledQty <= o.qty
    && (o.state.Filled? ==> o.filledQty == o.qty)
    && 0 <= o.reservedCash
    && (o.side.Sell? || o.state.Terminal() || o.filledQty == o.qty ==> o.reservedCash == 0)
    && (o.typ.Limit? <==> o.limit.Some?)
  }

  /**
   * An accepted event keeps the record sound, changes nothing that was asked, adds exactly the
   * fill it carries, and follows one edge of the table or none; a terminal order stays as it is.
   */
  lemma AdvanceKeepsOrder(o: Order, kind: EventKind, fill: Option<Execution>)
    requires OrderOk(o)
    requires fill.Some? ==> kind.IsFill()
    ensures var r := Advance(o, kind, fill); r.Moved? ==>
      && OrderOk(r.order)
      && r.order == o.(state := r.order.state, filledQty := r.order.filledQty, reservedCash := r.order.reservedCash)
      && r.order.filledQty == o.filledQty + (if fill.Some? then fill.value.qty else 0)
      && (r.order.state == o.state || r.order.state in Legal(o.state))
      && (r.steps == [] ==> r.order == o)
      && (o.state.Terminal() ==> r.order == o)
      && (fill.None? && r.order.state.Open() ==> r.order.reservedCash == o.reservedCash)
    ensures o.state.Terminal() ==> !Advance(o, kind, fill).Illegal?
  {
    var r := Advance(o, kind, fill);
    if r.Moved? {
      PlanIsLegal(o.state, kind);
      if o.filledQty < o.qty {
        ScaledBySame(o.reservedCash, o.qty - o.filledQty, fill.Some? && fill.value.tieUp);
      }
    }
  }

  /** Where an event takes an order that takes it. */
  ghost predicate Arrives(kind: EventKind, state: OrderState) {
    match kind
    case OrderAcknowledged => state.Acknowledged?
    case OrderAccepted => state.Accepted?
    case OrderPartiallyFilled => state.PartiallyFilled?
    case OrderFilled => state.Filled?
    case OrderCancelPending => state.CancelPending?
    case OrderCancelled => state.Cancelled?
    case OrderRejected => state.Rejected?
    case OrderExpired => state.Expired?
    case OrderSubmitFailed => state.SubmitFailed?
    case UnknownVendorStatus => false
  }

  /** When an event is news an order can take: what the venue may still do, stage by stage. */
  ghost predicate MayCome(state: OrderState, kind: EventKind) {
    match kind
    case OrderAcknowledged => state.PendingSubmission?
    case OrderAccepted => state.PendingSubmission? || state.Acknowledged?
    // Any open order may be filled, a cancel on its way included.
    case OrderPartiallyFilled => state.Open()
    case OrderFilled => state.Open()
    case OrderCancelPending => state.Acknowledged? || state.Accepted? || state.PartiallyFilled?
    // Once the venue has it, what is open can always be ended.
    case OrderCancelled => state.Open() && !state.PendingSubmission?
    case OrderExpired => state.Open() && !state.PendingSubmission?
    // Before any fill or cancel intent.
    case OrderRejected => state.PendingSubmission? || state.Acknowledged? || state.Accepted?
    case OrderSubmitFailed => state.PendingSubmission?
    case UnknownVendorStatus => false
  }

  /** Up to the order's quantity and no further, and ORDER_FILLED exactly up to it. */
  ghost predicate HasRoom(o: Order, kind: EventKind, size: nat) {
    && o.filledQty + size <= o.qty
    && (kind.OrderFilled? ==> o.filledQty + size == o.qty)
  }

  ghost predicate Takes(o: Order, kind: EventKind, size: nat) { MayCome(o.state, kind) && HasRoom(o, kind, size) }

  lemma PlanTakes(state: OrderState, kind: EventKind)
    requires !kind.UnknownVendorStatus?
    ensures Plan(state, kind).Some? <==> MayCome(state, kind) || (Arrives(kind, state) && !kind.IsFill())
    ensures MayCome(state, kind) ==>
      var steps := Plan(state, kind).value; steps != [] && Arrives(kind, steps[|steps| - 1].to)
    ensures Arrives(kind, state) && !kind.IsFill() ==> Plan(state, kind) == Some([]) && !MayCome(state, kind)
  {
  }

  /**
   * Which events move which orders: exactly those it takes, to the state they name. Of the others an
   * echo changes nothing, a terminal order and an unknown status keep an audit row, the rest throw.
   */
  lemma WhoTakesWhat(o: Order, kind: EventKind, fill: Option<Execution>)
    requires OrderOk(o) && (fill.Some? <==> kind.IsFill())
    ensures var size, r := if fill.Some? then fill.value.qty else 0, Advance(o, kind, fill);
      var echo := Arrives(kind, o.state) && fill.None?;
      && (Takes(o, kind, size) ==>
           r.Moved? && r.steps != [] && Arrives(kind, r.order.state) && r.order.filledQty == o.filledQty + size)
      && (echo ==> r == Moved([], o))
      && (!Takes(o, kind, size) && !echo ==>
           if o.state.Terminal() || kind.UnknownVendorStatus? then r.AuditOnly? else r.Illegal?)
  {
    hide NextReservation, Plan, Legal;
    AdvanceKeepsOrder(o, kind, fill);
    if !kind.UnknownVendorStatus? { PlanTakes(o.state, kind); }
    if o.state.Terminal() { TerminalAdmitsNothing(o.state, kind); }
  }

  /** The acceptance a fill overtakes is inferred, once, from where the order stood; nothing else is. */
  lemma InferredAcceptance(o: Order, kind: EventKind, fill: Option<Execution>)
    requires OrderOk(o) && (fill.Some? <==> kind.IsFill()) && Advance(o, kind, fill).Moved?
    ensures var steps := Advance(o, kind, fill).steps;
      if fill.Some? && (o.state.PendingSubmission? || o.state.Acknowledged?) then
        && |steps| == 2 && steps[0] == Step(o.state, Accepted, true)
        && steps[1].from.Accepted? && !steps[1].inferred && Arrives(kind, steps[1].to)
      else |steps| <= 1 && forall step <- steps :: step.from == o.state && !step.inferred && Arrives(kind, step.to)
  {
    hide NextReservation;
  }
}

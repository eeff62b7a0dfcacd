/** The money engine as a transition system: every transaction is one atomic step. */
module Engine {
  import opened Wrappers
  import opened MoneyMath
  import opened OrderMachine
  import opened Rows
  import opened Accounting
  import opened Orders
  import opened ExecutionService
  import opened Transfers
  import opened Accounts

  datatype Action =
    | LinkVenue | RefuseProvision | Activate(reported: Money) | ArchiveAccount
    | PlaceOrder(order: NewOrder) | CancelOrder(id: OrderId) | GiveUp(id: OrderId, found: VenueLookup)
    | Deliver(event: Event)
    | RequestTransfer(direction: Direction, amount: Money, key: Key, now: int)
    | RecordVenue(transfer: TransferId, venueId: VenueId)
    | ApplyVenue(transfer: TransferId, view: VenueTransfer)
    | FailTransfer(transfer: TransferId) | StampCanceled(transfer: TransferId, settled: bool)

  /** What one transaction commits, or that it throws. */
  function Effect(s: State, a: Action): Outcome<State> {
    match a
    // The one opener links the venue account or gives up, and does so while still provisioning.
    case LinkVenue => if s.status.Provisioning? && !s.linked then Commit(VenueLinked(s)) else Abort
    case RefuseProvision => if s.status.Provisioning? && !s.linked then Commit(ProvisionRefused(s)) else Abort
    case Activate(reported) => Activated(s, reported)
    case ArchiveAccount => ArchivedNow(s)
    case PlaceOrder(n) => Placed(s, n)
    case CancelOrder(id) => CancelRequested(s, id)
    case GiveUp(id, found) => SubmissionGivenUp(s, id, found)
    case Deliver(e) => EventApplied(s, e)
    case RequestTransfer(direction, amount, key, now) => Requested(s, direction, amount, key, now)
    case RecordVenue(id, venueId) => VenueIdRecorded(s, id, venueId)
    case ApplyVenue(id, v) => VenueStateApplied(s, id, v)
    case FailTransfer(id) => Finished(s, id, Failed)
    case StampCanceled(id, settled) => WatchStamped(s, id, settled)
  }

  function Next(s: State, a: Action): State {
    match Effect(s, a)
    case Commit(next) => next
    case Abort => s
  }

  /** A run: any interleaving of transactions, those that throw included. */
  function Run(s: State, actions: seq<Action>): State {
    if actions == [] then s else Next(Run(s, actions[..|actions| - 1]), actions[|actions| - 1])
  }

  lemma {:induction false} RunConcat(s: State, first: seq<Action>, rest: seq<Action>)
    ensures Run(s, first + rest) == Run(Run(s, first), rest)
  {
    hide Next;
    if rest == [] {
      assert first + rest == first;
    } else {
      var n := |rest| - 1;
      RunConcat(s, first, rest[..n]);
      assert (first + rest)[..|first| + n] == first + rest[..n];
    }
  }

  lemma RunStep(s: State, actions: seq<Action>, n: nat)
    requires n < |actions|
    ensures Run(s, actions[..n + 1]) == Next(Run(s, actions[..n]), actions[n])
  {
    hide Next;
    assert actions[..n + 1][..n] == actions[..n];
  }

  /** A created account, before anything has happened to it. */
  predicate Initial(s: State) {
    0 < s.startingCash &&
    s == State(s.cfg, s.startingCash, s.openedAt, Provisioning, false, 0, [], [], [], [], map[], [])
  }

  /** A step changes a state only through a committed effect that goes through applyTransition. */
  datatype OrderEffect =
    | NoOrderEffect
    | OrderEffect(id: OrderId, kind: EventKind, source: Source, ext: Option<EnvelopeId>, fill: Option<Execution>)

  /** The order transition a step performs, if it performs one. */
  function Transitions(s: State, a: Action): OrderEffect {
    if Effect(s, a).Abort? || Effect(s, a).state == s then NoOrderEffect
    else match a
      case CancelOrder(id) => OrderEffect(id, OrderCancelPending, Local, None, None)
      case GiveUp(id, _) => OrderEffect(id, OrderSubmitFailed, Local, None, None)
      case Deliver(e) => OrderEffect(e.order, e.kind, FromBroker, e.ext, if e.IsFill() then e.execution else None)
      case _ => NoOrderEffect
  }

  function LedgerTail(side: Side, x: Execution): seq<Entry> {
    [Entry(TradeEntry, TradeAmount(side, Notional(x.price, x.qty)), ToFill(x.id))] +
    if x.fee == 0 then [] else [Entry(FeeEntry, -x.fee, ToFill(x.id))]
  }

  /** The state a step with an order transition commits, spelled out table by table. */
  ghost predicate OrderStep(s: State, t: OrderEffect, next: State)
    requires t.OrderEffect? && t.id < |s.orders|
  {
    var o := s.orders[t.id];
    var advanced := Advance(o, t.kind, t.fill);
    && !advanced.Illegal?
    && (t.ext.Some? ==> !Seen(s.audit, t.ext.value))
    && (t.fill.Some? <==> t.kind.IsFill())
    && next == s.(
      audit := s.audit + [MainRow(o, t.id, t.kind, t.source, t.ext, if advanced.Moved? then advanced.steps else [])]
        + (if advanced.Moved? then InferredRows(t.id, advanced.steps) else []),
      orders := s.orders[t.id := if advanced.Moved? then advanced.order else o.(needsAttention := true)],
      fills := next.fills, positions := next.positions, ledger := next.ledger, cash := next.cash)
    && (t.fill.None? ==>
      next.fills == s.fills && next.positions == s.positions && next.ledger == s.ledger && next.cash == s.cash)
    && (t.fill.Some? ==>
      var x := t.fill.value;
      var amount := Notional(x.price, x.qty);
      var position := Repositioned(Lookup(s.positions, o.instrument), o.side, x.qty, amount, x.fee);
      && 0 < x.qty && 0 < amount && !Booked(s.fills, x.id) && position.Some?
      && next.fills == s.fills + [FillRow(o, t.id, x)]
      && next.positions == s.positions[o.instrument := position.value]
      && next.ledger == s.ledger + LedgerTail(o.side, x)
      && next.cash == s.cash + TradeAmount(o.side, amount) - x.fee)
  }

  lemma FillEffectsInFull(s: State, id: OrderId, x: Execution)
    requires id < |s.orders| && FillEffects(s, id, x).Commit?
    ensures var o := s.orders[id];
      var amount := Notional(x.price, x.qty);
      var position := Repositioned(Lookup(s.positions, o.instrument), o.side, x.qty, amount, x.fee);
      && 0 < x.qty && 0 < amount && !Booked(s.fills, x.id) && position.Some?
      && FillEffects(s, id, x).state == s.(
        fills := s.fills + [FillRow(o, id, x)],
        positions := s.positions[o.instrument := position.value],
        ledger := s.ledger + LedgerTail(o.side, x),
        cash := s.cash + TradeAmount(o.side, amount) - x.fee)
  {
  }

  /** An applied transition, and the bookkeeping of the execution it carries, is an order step. */
  lemma AppliedIsOrderStep(s: State, t: OrderEffect, mid: State)
    requires t.OrderEffect? && t.id < |s.orders| && (t.fill.Some? <==> t.kind.IsFill())
    requires Transitioned(s, t.id, t.kind, t.source, t.ext, t.fill) == Applied(mid)
    ensures t.fill.None? ==> OrderStep(s, t, mid)
    ensures t.fill.Some? && FillEffects(mid, t.id, t.fill.value).Commit? ==>
      OrderStep(s, t, FillEffects(mid, t.id, t.fill.value).state)
  {
    hide Plan, Repositioned, LedgerTail, Notional, Booked, Seen, FillEffects;
    var row := MainRow(s.orders[t.id], t.id, t.kind, t.source, t.ext, []);
    assert s.audit + [row] + [] == s.audit + [row];
    if t.fill.Some? && FillEffects(mid, t.id, t.fill.value).Commit? { FillEffectsInFull(mid, t.id, t.fill.value); }
  }

  /** Every step that changes an order row is an order step; every other step leaves them or appends. */
  lemma StepsInFull(s: State, a: Action)
    ensures var t := Transitions(s, a);
      && (t.OrderEffect? ==> t.id < |s.orders| && OrderStep(s, t, Next(s, a)))
      && (t.NoOrderEffect? ==> Next(s, a) == s || !(a.Deliver? || a.CancelOrder? || a.GiveUp?))
  {
    hide OrderStep, Transitioned, FillEffects, Booked;
    var t := Transitions(s, a);
    if t.OrderEffect? {
      var moved := Transitioned(s, t.id, t.kind, t.source, t.ext, t.fill);
      if moved.Applied? { AppliedIsOrderStep(s, t, moved.state); }
    }
  }

  /** A step without an order transition leaves orders, audit, fills and positions alone, or places one order. */
  lemma OtherStepsInFull(s: State, a: Action)
    requires Transitions(s, a).NoOrderEffect?
    ensures var next := Next(s, a);
      && next.audit == s.audit && next.fills == s.fills && next.positions == s.positions
      && (next.orders == s.orders ||
          (a.PlaceOrder? && Placed(s, a.order) == Commit(next) && Reservation(a.order, s.cfg.buffer).Some? &&
           next == s.(orders := s.orders + [NewRow(a.order, Reservation(a.order, s.cfg.buffer).value)])))
  {
    hide EventApplied, CancelRequested, SubmissionGivenUp, WithKey, RequestOk, TransferPosted, VenueIdLinked;
    StepsInFull(s, a);
  }

  /** The transactions of orders. */
  predicate OnOrders(a: Action) { a.PlaceOrder? || a.CancelOrder? || a.GiveUp? || a.Deliver? }

  /** They leave the account and its transfers alone. */
  lemma OrdersApart(s: State, a: Action)
    requires OnOrders(a)
    ensures var next := Next(s, a);
      next == s.(orders := next.orders, audit := next.audit, fills := next.fills, positions := next.positions,
                 ledger := next.ledger, cash := next.cash)
  {
    hide Advance, Repositioned, LedgerTail, Notional;
    StepsInFull(s, a);
    if Transitions(s, a).NoOrderEffect? { OtherStepsInFull(s, a); }
  }

  /** What openPaperAccount leaves behind is a state some run of the engine reaches. */
  lemma OpeningIsARun(s: State, provisioned: bool, reported: Money)
    requires 0 < s.startingCash && Opened(s, s.startingCash, provisioned, reported)
    ensures var created := State(s.cfg, s.startingCash, s.openedAt, Provisioning, false, 0, [], [], [], [], map[], []);
      && Initial(created)
      && s == Run(created, if provisioned then [LinkVenue, Activate(reported)] else [RefuseProvision])
  {
    var created := State(s.cfg, s.startingCash, s.openedAt, Provisioning, false, 0, [], [], [], [], map[], []);
    assert [LinkVenue, Activate(reported)][..1] == [LinkVenue] && [LinkVenue][..0] == [] == [RefuseProvision][..0];
    assert Run(created, [LinkVenue]) == created.(linked := true);
    assert Run(created, [RefuseProvision]) == created.(status := ProvisioningFailed);
  }
}

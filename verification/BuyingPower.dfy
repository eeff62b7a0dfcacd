/** Rounding can overdraw buying power by at most one cent per BUY order placed and BUY fill applied. */
module BuyingPower {
  import opened Wrappers
  import opened Sums
  import opened MoneyMath
  import opened OrderMachine
  import opened Rows
  import opened Accounting
  import opened Orders
  import opened ExecutionService
  import opened Transfers
  import opened Accounts
  import opened Engine
  import opened Conservation
  import opened OrderRecord

  /**
   * Twice what an open BUY still has to pay, in hundredths of a cent: its limit price times its
   * open shares, exactly. A MARKET order stands for what it reserved.
   */
  function ExactCost(o: Order): int {
    if !o.side.Buy? || !o.state.Open() then 0
    else if o.limit.Some? then 2 * (o.limit.value * (o.qty - o.filledQty))
    else 200 * o.reservedCash
  }

  /** How far rounding has moved an order's reservation off its exact cost, in the same unit. */
  function Drift(o: Order): int {
    var gap := 200 * BuyHold(o) - ExactCost(o);
    if gap < 0 then -gap else gap
  }

  function IsBuyOrder(o: Order): int { if o.side.Buy? then 1 else 0 }
  function IsBuyFill(f: Fill): int { if f.side.Buy? then 1 else 0 }

  /** One cent per BUY order ever placed and per BUY fill ever applied. */
  function Slack(s: State): int { SumOf(s.orders, IsBuyOrder) + SumOf(s.fills, IsBuyFill) }

  /** Buying power as it would be without any rounding, in two-hundredths of a cent. */
  function ExactFree(s: State): int {
    200 * (s.cash - SumOf(s.transfers, WithdrawalHold)) - SumOf(s.orders, ExactCost)
  }

  /** The potential: neither the exact figure nor the accumulated drift outruns the slack. */
  ghost predicate Bounded(s: State) {
    && -100 * Slack(s) <= ExactFree(s)
    && SumOf(s.orders, Drift) <= 100 * Slack(s)
  }

  lemma {:induction false} HoldsSplit(orders: seq<Order>)
    ensures 200 * SumOf(orders, BuyHold) <= SumOf(orders, ExactCost) + SumOf(orders, Drift)
    ensures SumOf(orders, ExactCost) <= 200 * SumOf(orders, BuyHold) + SumOf(orders, Drift)
  {
    if orders != [] { HoldsSplit(orders[..|orders| - 1]); }
  }

  /** The potential gives the bound on real buying power. */
  lemma BoundedIsEnough(s: State)
    requires Bounded(s)
    ensures -Slack(s) <= FreeCash(s)
  {
    HoldsSplit(s.orders);
  }

  /** A placed order drifts by at most half a cent. */
  lemma NewDrift(n: NewOrder, buffer: Ratio)
    requires ShapeOk(n) && Reservation(n, buffer).Some?
    ensures Drift(NewRow(n, Reservation(n, buffer).value)) <= 100 * IsBuyOrder(NewRow(n, Reservation(n, buffer).value))
  {
  }

  /** Scaling the reservation to the open remainder adds at most half a cent of drift. */
  lemma ScaledDrift(reserved: Money, price: int, before: nat, after: nat, tieUp: bool)
    requires 0 < after <= before
    ensures var next := ScaledReservation(reserved, before, after, tieUp);
      var gap, gapNext := 200 * reserved - 2 * (price * before), 200 * next - 2 * (price * after);
      -100 - Abs(gap) <= gapNext <= 100 + Abs(gap)
  {
    var next := ScaledReservation(reserved, before, after, tieUp);
    var gap, gapNext := 200 * reserved - 2 * (price * before), 200 * next - 2 * (price * after);
    Recombine(reserved, price, before, after, next);
    GapBound(before, after, gap, gapNext, 2 * (next * before - reserved * after));
  }

  lemma GapBound(before: nat, after: nat, gap: int, gapNext: int, err: int)
    requires 0 < after <= before && (0 - before) <= err <= before
    requires before * gapNext == 100 * err + after * gap
    ensures -100 - Abs(gap) <= gapNext <= 100 + Abs(gap)
  {
    Between(before, after, gap);
    assert before * (100 + Abs(gap)) == 100 * before + before * Abs(gap);
    Divide(before, gapNext, 100 + Abs(gap));
  }

  lemma Recombine(reserved: Money, price: int, before: nat, after: nat, next: Money)
    ensures before * (200 * next - 2 * (price * after)) ==
      100 * (2 * (next * before - reserved * after)) + after * (200 * reserved - 2 * (price * before))
  {
  }

  lemma Between(before: nat, after: nat, gap: int)
    requires after <= before
    ensures -(before * Abs(gap)) <= after * gap <= before * Abs(gap)
  {
  }

  lemma Divide(d: nat, x: int, bound: nat)
    requires 0 < d && -(d * bound) <= d * x <= d * bound
    ensures (0 - bound) <= x <= bound
  {
  }

  /** A step whose fill, if it applies one, is in time, within the limit, and raises cash when it sells. */
  ghost predicate Plain(s: State, a: Action) {
    var t := Transitions(s, a);
    t.OrderEffect? && t.fill.Some? && t.id < |s.orders| ==>
      var o, x := s.orders[t.id], t.fill.value;
      && o.state.Open()
      && (o.side.Buy? ==> o.limit.Some? && x.price <= o.limit.value && x.fee == 0)
      && (o.side.Sell? ==> x.fee <= Notional(x.price, x.qty))
  }

  ghost predicate PlainRun(s: State, actions: seq<Action>) {
    forall k | 0 <= k < |actions| :: Plain(Run(s, actions[..k]), actions[k])
  }

  lemma PlainPrefix(s: State, actions: seq<Action>)
    requires actions != [] && PlainRun(s, actions)
    ensures PlainRun(s, actions[..|actions| - 1])
    ensures Plain(Run(s, actions[..|actions| - 1]), actions[|actions| - 1])
  {
    var before := actions[..|actions| - 1];
    forall k | 0 <= k < |before| ensures Plain(Run(s, before[..k]), before[k]) {
      assert before[..k] == actions[..k] && before[k] == actions[k];
    }
  }

  /** A BUY fill lowers the exact cost by what was paid, to half a cent. */
  lemma FillPays(price: Px, limit: Px, before: nat, qty: nat)
    requires price <= limit && qty <= before
    ensures 2 * (limit * (before - qty)) - 2 * (limit * before) <= 100 - 200 * Notional(price, qty)
  {
    assert limit * before == limit * (before - qty) + limit * qty;
    assert price * qty <= limit * qty;
  }

  /** One BUY fill: exact cost falls by what was paid, to half a cent; drift grows by half a cent. */
  lemma BuyFillMoves(o: Order, x: Execution, row: Order)
    requires OrderOk(o) && o.side.Buy? && o.limit.Some? && o.state.Open()
    requires x.price <= o.limit.value && o.filledQty + x.qty <= o.qty
    requires row == o.(state := row.state, filledQty := o.filledQty + x.qty,
                       reservedCash := NextReservation(o, row.state, o.filledQty + x.qty, x.tieUp))
    requires row.state.Terminal() ==> row.filledQty == o.qty
    ensures ExactCost(row) - ExactCost(o) <= 100 - 200 * Notional(x.price, x.qty)
    ensures Drift(row) <= Drift(o) + 100
  {
    hide Notional, NextReservation, ExactCost, BuyHold;
    var limit, before, after := o.limit.value, o.qty - o.filledQty, row.qty - row.filledQty;
    FillPays(x.price, limit, before, x.qty);
    OpenBuyFigures(o);
    if after == 0 {
      CompletedFigures(row);
    } else {
      ReservationDrift(o, row.state, row.filledQty, x.tieUp);
      OpenBuyFigures(row);
    }
  }

  lemma OpenBuyFigures(o: Order)
    requires o.side.Buy? && o.limit.Some? && o.state.Open()
    ensures ExactCost(o) == 2 * (o.limit.value * (o.qty - o.filledQty)) && BuyHold(o) == o.reservedCash
  {
  }

  lemma CompletedFigures(o: Order)
    requires o.side.Buy? && o.limit.Some? && o.filledQty == o.qty && o.reservedCash == 0
    ensures ExactCost(o) == 0 && BuyHold(o) == 0
  {
  }

  lemma ReservationDrift(o: Order, state: OrderState, filled: nat, tieUp: bool)
    requires o.side.Buy? && o.limit.Some? && state.Open() && o.filledQty <= filled < o.qty
    ensures var gap, gapNext := 200 * o.reservedCash - 2 * (o.limit.value * (o.qty - o.filledQty)),
                                200 * NextReservation(o, state, filled, tieUp) - 2 * (o.limit.value * (o.qty - filled));
      -100 - Abs(gap) <= gapNext <= 100 + Abs(gap)
  {
    if 0 < filled {
      ScaledDrift(o.reservedCash, o.limit.value, o.qty - o.filledQty, o.qty - filled, tieUp);
    }
  }

  /** An accepted fill's order row, and that a fill ends an order only by completing it. */
  lemma FilledRow(o: Order, kind: EventKind, x: Execution)
    requires kind.IsFill() && Advance(o, kind, Some(x)).Moved?
    ensures var row := Advance(o, kind, Some(x)).order;
      && o.filledQty + x.qty <= o.qty
      && row == o.(state := row.state, filledQty := o.filledQty + x.qty,
                   reservedCash := NextReservation(o, row.state, o.filledQty + x.qty, x.tieUp))
      && (row.state.Terminal() ==> row.filledQty == o.qty)
  {
  }

  /** Without a fill an order's exact cost and drift stay or vanish. */
  lemma QuietMoves(o: Order, kind: EventKind)
    requires OrderOk(o) && Advance(o, kind, None).Moved?
    ensures var next := Advance(o, kind, None).order;
      ExactCost(next) <= ExactCost(o) && Drift(next) <= Drift(o)
  {
    AdvanceKeepsOrder(o, kind, None);
    hide Advance, Plan, Walked, Legal, HalfEven, ScaledReservation;
    if o.limit.Some? { ProductNat(o.limit.value, o.qty - o.filledQty); }
  }

  /** The order row's part in an order step, in one place. */
  lemma RowMoves(o: Order, t: OrderEffect, row: Order)
    requires OrderOk(o) && t.OrderEffect? && (t.fill.Some? <==> t.kind.IsFill())
    requires t.fill.Some? ==> o.state.Open() && (o.side.Buy? ==> o.limit.Some? && t.fill.value.price <= o.limit.value)
    requires var r := Advance(o, t.kind, t.fill);
      !r.Illegal? && row == if r.Moved? then r.order else o.(needsAttention := true)
    ensures row.side == o.side
    ensures var paid := if t.fill.Some? && o.side.Buy? then 200 * Notional(t.fill.value.price, t.fill.value.qty) - 100 else 0;
      ExactCost(row) - ExactCost(o) <= -paid
    ensures Drift(row) - Drift(o) <= if t.fill.Some? && o.side.Buy? then 100 else 0
  {
    var r := Advance(o, t.kind, t.fill);
    if r.Moved? {
      AdvanceKeepsOrder(o, t.kind, t.fill);
      if t.fill.None? {
        QuietMoves(o, t.kind);
      } else if o.side.Buy? {
        FilledRow(o, t.kind, t.fill.value);
        BuyFillMoves(o, t.fill.value, row);
      }
    }
  }

  lemma OrderStepBounded(s: State, t: OrderEffect, next: State)
    requires Bounded(s) && OrdersOk(s) && t.OrderEffect? && t.id < |s.orders| && OrderStep(s, t, next)
    requires t.fill.Some? ==>
      var o, x := s.orders[t.id], t.fill.value;
      && o.state.Open()
      && (o.side.Buy? ==> o.limit.Some? && x.price <= o.limit.value && x.fee == 0)
      && (o.side.Sell? ==> x.fee <= Notional(x.price, x.qty))
    ensures Bounded(next)
  {
    var o, row := s.orders[t.id], next.orders[t.id];
    RowMoves(o, t, row);
    SumUpdate(s.orders, t.id, row, ExactCost);
    SumUpdate(s.orders, t.id, row, Drift);
    SumUpdate(s.orders, t.id, row, IsBuyOrder);
    if t.fill.Some? { SumAppend(s.fills, FillRow(o, t.id, t.fill.value), IsBuyFill); }
  }

  /** Whatever leaves real buying power at zero or more leaves the exact figure within the slack. */
  lemma CheckedIsBounded(s: State)
    requires 0 <= FreeCash(s) && SumOf(s.orders, Drift) <= 100 * Slack(s)
    ensures Bounded(s)
  {
    HoldsSplit(s.orders);
  }

  lemma PlaceBounded(s: State, n: NewOrder)
    requires Bounded(s) && Placed(s, n).Commit?
    ensures Bounded(Placed(s, n).state)
  {
    hide SumOf, WithKey, Reservation, Sellable, Notional;
    var next := Placed(s, n).state;
    if next != s {
      var row := NewRow(n, Reservation(n, s.cfg.buffer).value);
      NewDrift(n, s.cfg.buffer);
      SumAppend(s.orders, row, ExactCost);
      SumAppend(s.orders, row, Drift);
      SumAppend(s.orders, row, IsBuyOrder);
      SumAppend(s.orders, row, BuyHold);
      if n.side.Buy? { CheckedIsBounded(next); }
    }
  }

  /** Cash less what pending withdrawals hold: what a transfer or account step may only raise. */
  function Unheld(s: State): int { s.cash - SumOf(s.transfers, WithdrawalHold) }

  lemma SettlingCash(s: State, id: TransferId, v: VenueTransfer)
    requires TransfersOk(s) && VenueStateApplied(s, id, v).Commit?
    ensures var next := VenueStateApplied(s, id, v).state;
      next.orders == s.orders && next.fills == s.fills && Unheld(s) <= Unheld(next)
  {
    hide SumOf, TransferPosted;
    var next := VenueStateApplied(s, id, v).state;
    SumUpdate(s.transfers, id, next.transfers[id], WithdrawalHold);
  }

  lemma RequestingCash(s: State, direction: Direction, amount: Money, key: Key, now: int)
    requires Requested(s, direction, amount, key, now).Commit?
    ensures var next := Requested(s, direction, amount, key, now).state;
      next.orders == s.orders && next.fills == s.fills && (Unheld(s) <= Unheld(next) || 0 <= FreeCash(next))
  {
    hide SumOf, WithKey, DepositedInWindow;
    var next := Requested(s, direction, amount, key, now).state;
    if next != s { SumAppend(s.transfers, next.transfers[|s.transfers|], WithdrawalHold); }
  }

  lemma ArchivingCash(s: State)
    requires TransfersOk(s) && ArchivedNow(s).Commit?
    ensures var next := ArchivedNow(s).state;
      next.orders == s.orders && next.fills == s.fills && Unheld(s) <= Unheld(next)
  {
    hide SumOf;
    SumAtMost(ArchivedNow(s).state.transfers, WithdrawalHold, s.transfers, WithdrawalHold);
  }

  /** Recording, failing and stamping move no cash and release holds at most. */
  lemma MarkingCash(s: State, next: State, id: TransferId, row: Transfer)
    requires TransfersOk(s) && id < |s.transfers| && next == s.(transfers := s.transfers[id := row])
    requires WithdrawalHold(row) <= WithdrawalHold(s.transfers[id])
    ensures Unheld(s) <= Unheld(next)
  {
    SumUpdate(s.transfers, id, row, WithdrawalHold);
  }

  /** A step on transfers or the account only ever raises cash less withdrawal holds, or has checked it. */
  lemma CashStep(s: State, a: Action)
    requires 0 < s.startingCash && TransfersOk(s) && Transitions(s, a).NoOrderEffect? && !a.PlaceOrder?
    ensures var next := Next(s, a);
      next.orders == s.orders && next.fills == s.fills && (Unheld(s) <= Unheld(next) || 0 <= FreeCash(next))
  {
    OtherStepsInFull(s, a);
    hide SumOf, Transitions, Requested, VenueStateApplied, ArchivedNow, VenueIdLinked;
    var next := Next(s, a);
    if next != s {
      match a
      case RequestTransfer(direction, amount, key, now) => RequestingCash(s, direction, amount, key, now);
      case RecordVenue(id, _) => MarkingCash(s, next, id, next.transfers[id]);
      case ApplyVenue(id, v) => SettlingCash(s, id, v);
      case FailTransfer(id) => MarkingCash(s, next, id, next.transfers[id]);
      case StampCanceled(id, _) => MarkingCash(s, next, id, next.transfers[id]);
      case ArchiveAccount => ArchivingCash(s);
      case _ =>
    }
  }

  lemma StepBounded(s: State, a: Action)
    requires Bounded(s) && Inv(s) && Plain(s, a)
    ensures Bounded(Next(s, a))
  {
    var t, next := Transitions(s, a), Next(s, a);
    if t.OrderEffect? {
      StepsInFull(s, a);
      OrderStepBounded(s, t, next);
    } else if a.PlaceOrder? {
      if Placed(s, a.order).Commit? { PlaceBounded(s, a.order); }
    } else {
      CashStep(s, a);
      if 0 <= FreeCash(next) { CheckedIsBounded(next); }
    }
  }

  /**
   * In every run whose BUY fills execute LIMIT orders at or below their limit with no fee, whose
   * sells raise cash, and where (H-term) holds: cash less open BUY reservations less pending
   * withdrawals never falls below minus one cent per BUY order placed and BUY fill applied.
   */
  lemma BuyingPowerBound(s: State, actions: seq<Action>)
    requires Initial(s) && PlainRun(s, actions)
    ensures -Slack(Run(s, actions)) <= FreeCash(Run(s, actions))
  {
    EveryRunBounded(s, actions);
    BoundedIsEnough(Run(s, actions));
  }

  lemma {:induction false} EveryRunBounded(s: State, actions: seq<Action>)
    requires Initial(s) && PlainRun(s, actions)
    ensures Bounded(Run(s, actions))
  {
    if actions != [] {
      PlainPrefix(s, actions);
      EveryRunBounded(s, actions[..|actions| - 1]);
      EveryRun(s, actions[..|actions| - 1]);
      StepBounded(Run(s, actions[..|actions| - 1]), actions[|actions| - 1]);
    }
  }
}

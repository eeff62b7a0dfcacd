/** Open sell orders never promise more shares than are held. */
module SellSafety {
  import opened Wrappers
  import opened Sums
  import opened MoneyMath
  import opened OrderMachine
  import opened Rows
  import opened Accounting
  import opened Orders
  import opened ExecutionService
  import opened Engine
  import opened Conservation
  import opened OrderRecord

  ghost predicate SellsCovered(s: State) {
    forall i: InstrumentId :: SumOf(s.orders, SellHold(i)) <= HeldQty(s, i)
  }

  lemma SellHoldsNonNegative(s: State, i: InstrumentId)
    requires OrdersOk(s)
    ensures forall k | 0 <= k < |s.orders| :: 0 <= SellHold(i)(s.orders[k]) <= SumOf(s.orders, SellHold(i))
  {
    SumNonNegative(s.orders, SellHold(i));
  }

  /** What one accepted event does to an order's claim on shares. */
  lemma ClaimAfter(o: Order, kind: EventKind, fill: Option<Execution>, i: InstrumentId)
    requires OrderOk(o) && Advance(o, kind, fill).Moved?
    requires fill.Some? ==> kind.IsFill() && o.state.Open()
    ensures var next := Advance(o, kind, fill).order;
      SellHold(i)(next) <= SellHold(i)(o)
        - if fill.Some? && o.side.Sell? && o.instrument == i then fill.value.qty else 0
  {
  }

  lemma OrderStepCovered(s: State, t: OrderEffect, next: State)
    requires SellsCovered(s) && OrdersOk(s)
    requires t.OrderEffect? && t.id < |s.orders| && OrderStep(s, t, next)
    requires t.fill.Some? ==> s.orders[t.id].state.Open()
    ensures SellsCovered(next)
  {
    hide SumOf, InferredRows, MainRow, LedgerTail, Seen, Booked;
    var o := s.orders[t.id];
    forall i: InstrumentId ensures SumOf(next.orders, SellHold(i)) <= HeldQty(next, i) {
      SumUpdate(s.orders, t.id, next.orders[t.id], SellHold(i));
      if Advance(o, t.kind, t.fill).Moved? { ClaimAfter(o, t.kind, t.fill, i); }
    }
  }

  lemma PlaceCovered(s: State, n: NewOrder)
    requires SellsCovered(s) && Placed(s, n).Commit?
    ensures SellsCovered(Placed(s, n).state)
  {
  }

  lemma StepCovered(s: State, a: Action)
    requires SellsCovered(s) && Inv(s) && !LateFill(s, a)
    ensures SellsCovered(Next(s, a))
  {
    var t := Transitions(s, a);
    if t.OrderEffect? {
      StepsInFull(s, a);
      OrderStepCovered(s, t, Next(s, a));
    } else {
      OtherStepsInFull(s, a);
      if Next(s, a).orders != s.orders { PlaceCovered(s, a.order); }
    }
  }

  /** Under (H-term) the shares promised by open sells never exceed the shares held, in any run. */
  lemma {:induction false} EveryRunCovered(s: State, actions: seq<Action>)
    requires Initial(s) && NoLateFills(s, actions)
    ensures SellsCovered(Run(s, actions))
  {
    if actions != [] {
      NoLateFillsPrefix(s, actions);
      EveryRunCovered(s, actions[..|actions| - 1]);
      EveryRun(s, actions[..|actions| - 1]);
      StepCovered(Run(s, actions[..|actions| - 1]), actions[|actions| - 1]);
    } else {
      assert SumOf(s.orders, SellHold(0)) == 0;
    }
  }

  /** So a sell fill the order accepts is never refused by the position bookkeeping. */
  lemma {:induction false} SellGuardNeverFires(s: State, actions: seq<Action>, id: OrderId, x: Execution)
    requires Initial(s) && NoLateFills(s, actions)
    requires var e := Run(s, actions); id < |e.orders| && e.orders[id].side.Sell? && e.orders[id].state.Open()
    requires 0 < x.qty <= Run(s, actions).orders[id].qty - Run(s, actions).orders[id].filledQty
    ensures var e := Run(s, actions);
      SellFill(Lookup(e.positions, e.orders[id].instrument), x.qty, Notional(x.price, x.qty), x.fee).Some?
  {
    var e := Run(s, actions);
    var i := e.orders[id].instrument;
    EveryRunCovered(s, actions);
    EveryRun(s, actions);
    SellHoldsNonNegative(e, i);
    AllocationNeverRefuses(s, actions, i, x.qty);
  }
}

/** An order reconciliation leaves open for good: a run of the account, then two passes. */
module StuckOrder {
  import opened Wrappers
  import opened Sums
  import opened StableSort
  import opened MoneyMath
  import opened OrderMachine
  import opened Rows
  import opened Orders
  import opened ExecutionService
  import opened Engine
  import opened OrderRecord
  import opened Reconciliation
  import opened PageRuns

  const WANTED := Limited(Buy, 2, 10000, 0)
  const WORKING := NewRow(WANTED, 200).(state := Acknowledged)
  const ACKED := Deliver(Event(OrderAcknowledged, 0, Some(StreamId(0)), None))
  const ACTIONS := [LinkVenue, Activate(100000), PlaceOrder(WANTED), ACKED]

  /** Both executions are in the activities before the venue's order says so. */
  const EXECUTED := [Activity(0, 0, 1, 10000, 1, false), Activity(0, 1, 2, 10000, 1, false)]
  const EARLY := Snapshot(0, PartiallyFilledAtVenue, 1, EXECUTED)
  const LATER := Snapshot(0, FilledAtVenue, 2, EXECUTED)

  lemma Acknowledges()
    ensures var e := Run(CREATED, ACTIONS);
      e.orders == [WORKING] && e.fills == [] && !Seen(e.audit, ReconStatus(0, FilledAtVenue))
    ensures Run(CREATED, ACTIONS[..3]) == OPENED.(orders := [NewRow(WANTED, 200)])
  {
    OpensAccount();
    assert HalfEven(20000, 100) == 200;
    PlacesBuy([], WANTED);
    assert [] + [NewRow(WANTED, 200)] == [NewRow(WANTED, 200)];
    RunOn(CREATED, [LinkVenue, Activate(100000)], PlaceOrder(WANTED));
    assert ACTIONS[..3] == [LinkVenue, Activate(100000)] + [PlaceOrder(WANTED)];
    RunOn(CREATED, ACTIONS[..3], ACKED);
    assert ACTIONS[..3] + [ACKED] == ACTIONS;
    hide Run, HalfEven;
    AcksPlaced();
  }

  lemma AcksPlaced()
    ensures var next := Next(OPENED.(orders := [NewRow(WANTED, 200)]), ACKED);
      next.orders == [WORKING] && next.fills == [] && !Seen(next.audit, ReconStatus(0, FilledAtVenue))
  {
  }

  lemma NoneIsLate()
    ensures NoLateFills(CREATED, ACTIONS) && AllWellLabelled(ACTIONS)
  {
    hide Run, Effect;
    forall k | 0 <= k < |ACTIONS| ensures !LateFill(Run(CREATED, ACTIONS[..k]), ACTIONS[k]) {}
  }

  lemma ExecutedInOrder()
    ensures OrderFills(EXECUTED, 0) == EXECUTED && SumOf(EXECUTED, QtyOf) == 2 && Executions(EXECUTED, 2)
  {
    assert HalfEven(10000, 100) == 100;
    assert EXECUTED[..1] == [EXECUTED[0]] && [EXECUTED[0]][..0] == [] && [] + [EXECUTED[0]] == [EXECUTED[0]];
    assert OwnActivities([EXECUTED[0]], 0) == [EXECUTED[0]];
    assert [EXECUTED[0]] + [EXECUTED[1]] == EXECUTED;
    assert OwnActivities(EXECUTED, 0) == EXECUTED;
    assert SortedBy([], ActivityTime) == [];
    assert SortedBy([EXECUTED[0]], ActivityTime) == [EXECUTED[0]];
    assert SumOf([EXECUTED[0]], QtyOf) == 1;
  }

  /** After both passes the order is open with both its shares filled, and the second changed nothing. */
  lemma OrderSticks()
    ensures Initial(CREATED)
    ensures var p := OrderReconciled(Run(CREATED, ACTIONS), 0, Acknowledged, Some(EARLY), 0);
      && !p.threw && |p.db.orders| > 0
      && p.db.orders[0].state.Open() && p.db.orders[0].filledQty == p.db.orders[0].qty
      && OrderReconciled(p.db, 0, PartiallyFilled, Some(LATER), 0) == Pass(p.db, false)
  {
    Acknowledges();
    NoneIsLate();
    ExecutedInOrder();
    OpensAccount();
    hide Run, NoLateFills, AllWellLabelled, OrderFills, SumOf, Executions, OrderReconciled, Seen;
    assert BookedPrefix(Run(CREATED, ACTIONS), 0, EXECUTED, 0);
    EveryRunSticks(CREATED, ACTIONS, 0, Acknowledged, PartiallyFilled, EARLY, LATER, 0, 0, 0);
  }
}

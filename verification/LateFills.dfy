/**
 * A late fill is reachable: a submission whose lookup failed is given up as if the venue had no
 * such order, and the venue's fill arrives afterwards. The money moves, the order does not.
 */
module LateFills {
  import opened Wrappers
  import opened Sums
  import opened MoneyMath
  import opened OrderMachine
  import opened Rows
  import opened Orders
  import opened ExecutionService
  import opened Accounts
  import opened Accounting
  import opened Engine
  import opened OrderRecord

  const CREATED := State(Config(Ratio(0, 1), 1, 500, 500, 0), 1000, 0, Provisioning, false, 0, [], [], [], [], map[], [])

  const OPENING := Entry(DepositEntry, 1000, ToAccount)
  const OPENED := CREATED.(status := Active, linked := true, cash := 1000, ledger := [OPENING])

  /** One share at no more than a dollar. */
  const WANTED := NewOrder(Buy, Limit, 5, true, 1, Some(10000), None, 0)
  const PLACED := NewRow(WANTED, 100)

  const EXECUTION := Execution(0, 1, 10000, 0, 0, false)
  const FILLED := Event(OrderFilled, 0, Some(StreamId(0)), Some(EXECUTION))

  const ACTIONS := [LinkVenue, Activate(1000), PlaceOrder(WANTED), GiveUp(0, LookupFailed), Deliver(FILLED)]

  lemma Opened()
    ensures Run(CREATED, ACTIONS[..2]) == OPENED
  {
    RunStep(CREATED, ACTIONS, 0);
    RunStep(CREATED, ACTIONS, 1);
    assert Run(CREATED, ACTIONS[..0]) == CREATED;
    hide Run;
    assert Next(CREATED, LinkVenue) == CREATED.(linked := true);
  }

  lemma OneDollar()
    ensures Notional(10000, 1) == 100
  {
  }

  lemma PlacedOne()
    ensures Placed(OPENED, WANTED) == Commit(OPENED.(orders := [PLACED]))
  {
    OneDollar();
    assert FreeCash(OPENED) == 1000;
    assert [] + [PLACED] == [PLACED];
  }

  lemma GivenUp()
    ensures SubmissionGivenUp(OPENED.(orders := [PLACED]), 0, LookupFailed).Commit?
    ensures var e := SubmissionGivenUp(OPENED.(orders := [PLACED]), 0, LookupFailed).state;
      && e.orders == [PLACED.(state := SubmitFailed, reservedCash := 0)]
      && e.cash == 1000 && e.fills == [] && e.positions == map[] && forall x :: !Seen(e.audit, x)
  {
  }

  lemma PlacedAndGivenUp()
    ensures Run(CREATED, ACTIONS[..4]).orders == [PLACED.(state := SubmitFailed, reservedCash := 0)]
    ensures var e := Run(CREATED, ACTIONS[..4]);
      e.cash == 1000 && e.fills == [] && e.positions == map[] && forall x :: !Seen(e.audit, x)
  {
    hide Run, Placed, SubmissionGivenUp;
    Opened();
    PlacedOne();
    GivenUp();
    RunStep(CREATED, ACTIONS, 2);
    RunStep(CREATED, ACTIONS, 3);
  }

  /** The account paid for and holds a share of an order that failed with nothing filled. */
  lemma LateFillHappens()
    ensures Initial(CREATED) && !NoLateFills(CREATED, ACTIONS)
    ensures var e := Run(CREATED, ACTIONS);
      && e.orders == [PLACED.(state := SubmitFailed, reservedCash := 0, needsAttention := true)]
      && e.fills == [FillRow(PLACED, 0, EXECUTION)] && e.cash == 900 && e.positions == map[5 := Position(1, 10000)]
  {
    PlacedAndGivenUp();
    var s := Run(CREATED, ACTIONS[..4]);
    assert ACTIONS[..|ACTIONS| - 1] == ACTIONS[..4];
    hide Run, NoLateFills;
    LateStep(s);
    assert LateFill(s, ACTIONS[4]);
    NotAllTimely();
  }

  lemma NotAllTimely()
    requires LateFill(Run(CREATED, ACTIONS[..4]), ACTIONS[4])
    ensures !NoLateFills(CREATED, ACTIONS)
  {
  }

  lemma LateStep(s: State)
    requires s.orders == [PLACED.(state := SubmitFailed, reservedCash := 0)]
    requires s.cash == 1000 && s.fills == [] && s.positions == map[] && forall x :: !Seen(s.audit, x)
    ensures LateFill(s, Deliver(FILLED))
    ensures var e := Next(s, Deliver(FILLED));
      && e.orders == [PLACED.(state := SubmitFailed, reservedCash := 0, needsAttention := true)]
      && e.fills == [FillRow(PLACED, 0, EXECUTION)] && e.cash == 900 && e.positions == map[5 := Position(1, 10000)]
  {
    OneDollar();
    assert Repositioned(None, Buy, 1, 100, 0) == Some(Position(1, 10000));
    hide Notional, Repositioned, Seen, MainRow, InferredRows;
    var row := PLACED.(state := SubmitFailed, reservedCash := 0);
    assert Advance(row, OrderFilled, Some(EXECUTION)) == AuditOnly;
  }
}

/** Canonical broker events applied atomically: order, fill, ledger, position and cash together. */
module ExecutionService {
  import opened Wrappers
  import opened MoneyMath
  import opened OrderMachine
  import opened Rows
  import opened Accounting
  import opened Orders

  datatype Event = Event(kind: EventKind, order: OrderId, ext: Option<EnvelopeId>, execution: Option<Execution>)
  {
    predicate IsFill() { kind.IsFill() }
  }

  /** The position a fill leaves; None where the bookkeeping throws. */
  function Repositioned(current: Option<Position>, side: Side, qty: nat, amount: Money, fee: Money): Option<Position> {
    if side.Buy? then BuyFill(current, qty, amount, fee)
    else
      match SellFill(current, qty, amount, fee)
      case None => None
      case Some(sale) => Some(sale.position)
  }

  function FillRow(o: Order, id: OrderId, x: Execution): Fill {
    Fill(id, o.side, o.instrument, x.qty, x.price, x.fee, Notional(x.price, x.qty), x.id, x.at)
  }

  function TradeAmount(side: Side, amount: Money): Money {
    if side.Buy? then -amount else amount
  }

  /** The TRADE entry, then the FEE entry when there is a fee. */
  function TradePosted(s: State, side: Side, x: Execution): Outcome<State> {
    match Posted(s, Entry(TradeEntry, TradeAmount(side, Notional(x.price, x.qty)), ToFill(x.id)))
    case Abort => Abort
    case Commit(traded) =>
      if x.fee == 0 then Commit(traded) else Posted(traded, Entry(FeeEntry, -x.fee, ToFill(x.id)))
  }

  /** applyFillEffects: fills row, position and ledger entries. */
  function FillEffects(s: State, id: OrderId, x: Execution): Outcome<State>
    requires id < |s.orders|
  {
    var o := s.orders[id];
    if x.qty == 0 || Booked(s.fills, x.id) then Abort
    else
      match Repositioned(Lookup(s.positions, o.instrument), o.side, x.qty, Notional(x.price, x.qty), x.fee)
      case None => Abort
      case Some(next) =>
        TradePosted(s.(fills := s.fills + [FillRow(o, id, x)], positions := s.positions[o.instrument := next]), o.side, x)
  }

  /** onBrokerEvent: the exactly-once boundary. */
  function EventApplied(s: State, e: Event): Outcome<State> {
    if |s.orders| <= e.order then Abort
    else if e.IsFill() && e.execution.None? then Abort
    else if e.IsFill() && Booked(s.fills, e.execution.value.id) then Commit(s)
    else
      match Transitioned(s, e.order, e.kind, FromBroker, e.ext, if e.IsFill() then e.execution else None)
      case Throws => Abort
      case Duplicate => Commit(s)
      case Applied(next) => if e.IsFill() then FillEffects(next, e.order, e.execution.value) else Commit(next)
  }

  method PostTrade(tx: Database, side: Side, x: Execution) returns (ok: bool)
    modifies tx
    ensures ok <==> TradePosted(old(tx.Contents()), side, x).Commit?
    ensures ok ==> TradePosted(old(tx.Contents()), side, x) == Commit(tx.Contents())
  {
    ok := Post(tx, Entry(TradeEntry, TradeAmount(side, Notional(x.price, x.qty)), ToFill(x.id)));
    if ok && x.fee != 0 {
      ok := Post(tx, Entry(FeeEntry, -x.fee, ToFill(x.id)));
    }
  }

  method ApplyFillEffects(tx: Database, id: OrderId, x: Execution) returns (ok: bool)
    requires id < |tx.orders|
    modifies tx
    ensures ok <==> FillEffects(old(tx.Contents()), id, x).Commit?
    ensures ok ==> FillEffects(old(tx.Contents()), id, x) == Commit(tx.Contents())
  {
    var o := tx.orders[id];
    if x.qty == 0 || Booked(tx.fills, x.id) { return false; }
    tx.fills := tx.fills + [FillRow(o, id, x)];
    var position := Lookup(tx.positions, o.instrument);
    var next := Repositioned(position, o.side, x.qty, Notional(x.price, x.qty), x.fee);
    if next.None? { return false; }
    tx.positions := tx.positions[o.instrument := next.value];
    ok := PostTrade(tx, o.side, x);
  }

  /** One transaction: it commits what EventApplied says, or leaves no trace. */
  method OnBrokerEvent(tx: Database, e: Event) returns (ok: bool)
    modifies tx
    ensures ok <==> EventApplied(old(tx.Contents()), e).Commit?
    ensures tx.Contents() == if ok then EventApplied(old(tx.Contents()), e).state else old(tx.Contents())
  {
    if |tx.orders| <= e.order { return false; }
    if e.IsFill() {
      if e.execution.None? { return false; }
      if Booked(tx.fills, e.execution.value.id) { return true; }
    }
    var before := tx.Contents();
    var answer := ApplyTransition(tx, e.order, e.kind, FromBroker, e.ext, if e.IsFill() then e.execution else None);
    if answer.WasDuplicate? { return true; }
    ok := answer.Done?;
    if ok && e.IsFill() {
      ok := ApplyFillEffects(tx, e.order, e.execution.value);
    }
    if !ok { tx.Rollback(before); }
  }

  /** What the venue answered when submission failed twice and the order was looked up. */
  datatype VenueLookup = Found | NoSuchOrder | LookupFailed

  /** The end of `submit`: a failed lookup counts as "no such order". */
  function SubmissionGivenUp(s: State, id: OrderId, found: VenueLookup): Outcome<State> {
    if |s.orders| <= id || found.Found? then Abort
    else
      match Transitioned(s, id, OrderSubmitFailed, Local, None, None)
      case Applied(next) => Commit(next)
      case _ => Abort
  }

  method GiveUpSubmission(tx: Database, id: OrderId, found: VenueLookup) returns (ok: bool)
    modifies tx
    ensures ok <==> SubmissionGivenUp(old(tx.Contents()), id, found).Commit?
    ensures tx.Contents() == if ok then SubmissionGivenUp(old(tx.Contents()), id, found).state else old(tx.Contents())
  {
    if |tx.orders| <= id || found.Found? { return false; }
    var before := tx.Contents();
    var answer := ApplyTransition(tx, id, OrderSubmitFailed, Local, None, None);
    ok := answer.Done?;
    if !ok { tx.Rollback(before); }
  }

  /** What SUBMIT_FAILED does to an order, where it is not refused. */
  function GivenUp(o: Order): Order {
    if o.state.PendingSubmission? then o.(state := SubmitFailed, reservedCash := 0)
    else if o.state.SubmitFailed? then o
    else o.(needsAttention := true)
  }

  lemma AdvanceGivenUp(o: Order)
    requires OrderOk(o)
    ensures Advance(o, OrderSubmitFailed, None).Illegal? <==> !o.state.PendingSubmission? && !o.state.Terminal()
    ensures var r := Advance(o, OrderSubmitFailed, None);
      !r.Illegal? ==> GivenUp(o) == if r.Moved? then r.order else o.(needsAttention := true)
  {
  }

  /**
   * Giving up is refused exactly for an order that has meanwhile begun to work: one still
   * PENDING_SUBMISSION fails and releases its cash, one already terminal keeps its state.
   */
  lemma GivingUpIff(s: State, id: OrderId, found: VenueLookup)
    requires id < |s.orders| && OrderOk(s.orders[id])
    ensures var o, outcome := s.orders[id], SubmissionGivenUp(s, id, found);
      && (outcome.Commit? <==> !found.Found? && (o.state.PendingSubmission? || o.state.Terminal()))
      && (outcome.Commit? ==> outcome.state.orders == s.orders[id := GivenUp(o)] && outcome.state.cash == s.cash)
  {
    hide Seen, InferredRows, MainRow, Advance, GivenUp;
    AdvanceGivenUp(s.orders[id]);
  }

  /** The tables after the events that arrive meanwhile, each of which is applied or throws. */
  function Arrived(s: State, events: seq<Event>): State {
    if events == [] then s
    else
      var before := Arrived(s, events[..|events| - 1]);
      match EventApplied(before, events[|events| - 1])
      case Commit(next) => next
      case Abort => before
  }

  method Arrive(tx: Database, events: seq<Event>)
    modifies tx
    ensures tx.Contents() == Arrived(old(tx.Contents()), events)
  {
    hide EventApplied;
    for i := 0 to |events|
      invariant tx.Contents() == Arrived(old(tx.Contents()), events[..i])
    {
      assert events[..i + 1][..i] == events[..i];
      var ok := OnBrokerEvent(tx, events[i]);
    }
    assert events[..|events|] == events;
  }

  /** How `submit` ends. */
  datatype Submission = Missing | AlreadySubmitted | Sent | GaveUp | LeftToTheVenue | Threw

  /**
   * submit: one retry, then a lookup; `first` and `second` say whether each send got through, and
   * `meanwhile` is what the venue's stream brought between reading the order and the end. Giving up
   * is tried only after both sends failed and the lookup brought nothing back.
   */
  method Submit(tx: Database, id: OrderId, first: bool, second: bool, found: VenueLookup, meanwhile: seq<Event>)
    returns (end: Submission)
    modifies tx
    ensures end.Missing? <==> |old(tx.orders)| <= id
    ensures end.AlreadySubmitted? <==> id < |old(tx.orders)| && !old(tx.orders)[id].state.PendingSubmission?
    ensures !end.Missing? && !end.AlreadySubmitted? ==> (end.Sent? <==> first || second)
    ensures end.LeftToTheVenue? ==> !first && !second && found.Found?
    ensures end.GaveUp? || end.Threw? ==> !first && !second && !found.Found?
    ensures
      var reached := if end.Missing? || end.AlreadySubmitted? then old(tx.Contents()) else Arrived(old(tx.Contents()), meanwhile);
      if end.GaveUp? then SubmissionGivenUp(reached, id, found) == Commit(tx.Contents())
      else tx.Contents() == reached && (end.Threw? ==> SubmissionGivenUp(reached, id, found).Abort?)
  {
    if |tx.orders| <= id { return Missing; }
    if !tx.orders[id].state.PendingSubmission? { return AlreadySubmitted; }
    Arrive(tx, meanwhile);
    if first || second { return Sent; }
    if found.Found? { return LeftToTheVenue; }
    var ok := GiveUpSubmission(tx, id, found);
    return if ok then Submission.GaveUp else Submission.Threw;
  }
}

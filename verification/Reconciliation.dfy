/** The REST fallback: replaying a venue snapshot through the same apply path. */
module Reconciliation {
  import opened Wrappers
  import opened Sums
  import opened StableSort
  import opened MoneyMath
  import opened OrderMachine
  import opened Rows
  import opened Accounting
  import opened Orders
  import opened ExecutionService
  import opened Engine
  import opened Conservation
  import opened OrderRecord
  import opened SellSafety
  import opened Delivery

  /** A FILL activity of the venue; the stream and the activities name an execution alike. */
  datatype Activity = Activity(order: OrderId, exec: ExecId, time: int, price: Px, qty: nat, tieUp: bool)

  datatype Snapshot = Snapshot(order: OrderId, status: VendorStatus, filledQty: nat, activities: seq<Activity>)

  /** EVENT_MAP on order statuses. */
  function StatusEvent(status: VendorStatus): Option<EventKind> {
    match status
    case PendingNew => Some(OrderAcknowledged)
    case AcceptedAtVenue => Some(OrderAccepted)
    case NewAtVenue => Some(OrderAccepted)
    case PendingCancel => Some(OrderCancelPending)
    case CanceledAtVenue => Some(OrderCancelled)
    case RejectedAtVenue => Some(OrderRejected)
    case ExpiredAtVenue => Some(OrderExpired)
    case DoneForDay => Some(OrderExpired)
    case _ => None
  }

  function OwnActivities(activities: seq<Activity>, order: OrderId): seq<Activity> {
    if activities == [] then []
    else
      var last := activities[|activities| - 1];
      OwnActivities(activities[..|activities| - 1], order) + if last.order == order then [last] else []
  }

  function ActivityTime(a: Activity): int { a.time }

  /** The order's own activities, in transaction-time order. */
  function OrderFills(activities: seq<Activity>, order: OrderId): seq<Activity> {
    SortedBy(OwnActivities(activities, order), ActivityTime)
  }

  lemma {:induction false} OwnActivitiesAre(activities: seq<Activity>, order: OrderId)
    ensures forall a :: multiset(OwnActivities(activities, order))[a] == if a.order == order then multiset(activities)[a] else 0
  {
    if activities != [] {
      var rest, last := activities[..|activities| - 1], activities[|activities| - 1];
      assert activities == rest + [last];
      OwnActivitiesAre(rest, order);
    }
  }

  /** Exactly the order's activities, each as often as the venue lists it, in transaction-time order. */
  lemma OrderFillsAreAll(activities: seq<Activity>, order: OrderId)
    ensures Ascends(OrderFills(activities, order), ActivityTime)
    ensures forall a :: multiset(OrderFills(activities, order))[a] == if a.order == order then multiset(activities)[a] else 0
  {
    OwnActivitiesAre(activities, order);
    SortedAscends(OwnActivities(activities, order), ActivityTime);
  }

  function QtyOf(a: Activity): int { a.qty }

  function FillEvent(order: OrderId, a: Activity, kind: EventKind): Event {
    Event(kind, order, Some(ReconFill(a.exec)), Some(Execution(a.exec, a.qty, a.price, 0, a.time, a.tieUp)))
  }

  function FillKind(status: VendorStatus, isLast: bool): EventKind {
    if isLast && status.FilledAtVenue? then OrderFilled else OrderPartiallyFilled
  }

  function FillEvents(order: OrderId, status: VendorStatus, fills: seq<Activity>): seq<Event> {
    seq(|fills|, i requires 0 <= i < |fills| => FillEvent(order, fills[i], FillKind(status, i == |fills| - 1)))
  }

  function StatusEvents(order: OrderId, status: VendorStatus): seq<Event> {
    if StatusEvent(status).None? then []
    else [Event(StatusEvent(status).value, order, Some(ReconStatus(order, status)), None)]
  }

  /** eventsFromSnapshot: None where fills the venue reports are not visible. */
  function SnapshotEvents(v: Snapshot): Option<seq<Event>> {
    var fills := OrderFills(v.activities, v.order);
    if SumOf(fills, QtyOf) < v.filledQty then None
    else Some(FillEvents(v.order, v.status, fills) + StatusEvents(v.order, v.status))
  }

  method EventsFromSnapshot(v: Snapshot) returns (events: Option<seq<Event>>)
    ensures events == SnapshotEvents(v)
  {
    var fills := OrderFills(v.activities, v.order);
    if SumOf(fills, QtyOf) < v.filledQty { return None; }
    var out: seq<Event>, i := [], 0;
    while i < |fills|
      invariant i <= |fills|
      invariant out == FillEvents(v.order, v.status, fills)[..i]
    {
      out := out + [FillEvent(v.order, fills[i], FillKind(v.status, i == |fills| - 1))];
      i := i + 1;
    }
    assert FillEvents(v.order, v.status, fills)[..i] == FillEvents(v.order, v.status, fills);
    assert out == out + [];
    var status := StatusEvent(v.status);
    if status.Some? { out := out + [Event(status.value, v.order, Some(ReconStatus(v.order, v.status)), None)]; }
    return Some(out);
  }

  predicate PreCancel(kind: EventKind) { kind.OrderAcknowledged? || kind.OrderAccepted? }

  function ActivityOf(order: OrderId): Activity -> bool { (a: Activity) => a.order == order }

  lemma {:induction false} OwnAreSelected(activities: seq<Activity>, order: OrderId)
    ensures OwnActivities(activities, order) == Where(activities, ActivityOf(order))
  {
    if activities != [] { OwnAreSelected(activities[..|activities| - 1], order); }
  }

  lemma {:induction false} InsertedSum(rows: seq<Activity>, row: Activity)
    ensures SumOf(Inserted(rows, ActivityTime, row), QtyOf) == SumOf(rows, QtyOf) + QtyOf(row)
  {
    SumAppend(rows, row, QtyOf);
    if rows != [] {
      var rest, last := rows[..|rows| - 1], rows[|rows| - 1];
      InsertedSum(rest, row);
      SumAppend(Inserted(rest, ActivityTime, row), last, QtyOf);
    }
  }

  lemma {:induction false} SortedSum(rows: seq<Activity>)
    ensures SumOf(SortedBy(rows, ActivityTime), QtyOf) == SumOf(rows, QtyOf)
  {
    if rows != [] {
      SortedSum(rows[..|rows| - 1]);
      InsertedSum(SortedBy(rows[..|rows| - 1], ActivityTime), rows[|rows| - 1]);
    }
  }

  /** A snapshot is refused exactly when its activities show fewer of the order's shares than it says are filled. */
  lemma RefusedIff(s: State, seen: OrderState, v: Snapshot, age: int)
    ensures SnapshotEvents(v).None? <==> SumOf(Where(v.activities, ActivityOf(v.order)), QtyOf) < v.filledQty
    ensures SnapshotEvents(v).None? ==> OrderReconciled(s, v.order, seen, Some(v), age) == Pass(s, true)
  {
    OwnAreSelected(v.activities, v.order);
    SortedSum(OwnActivities(v.activities, v.order));
  }

  /** How far a pass gets: each event is its own transaction, and the first to throw ends the pass. */
  datatype Pass = Pass(db: State, threw: bool)

  function Replayed(s: State, cancelling: bool, events: seq<Event>): Pass {
    if events == [] then Pass(s, false)
    else
      var before, e := Replayed(s, cancelling, events[..|events| - 1]), events[|events| - 1];
      if before.threw || (cancelling && PreCancel(e.kind)) then before
      else
        match EventApplied(before.db, e)
        case Abort => Pass(before.db, true)
        case Commit(next) => Pass(next, false)
  }

  const PENDING_GRACE_MS := 60000
  const RESEND_AFTER_MS := 60000

  /** What reconcileAccount does for one order it listed as open, in state `seen`, created `age` ago. */
  function OrderReconciled(s: State, id: OrderId, seen: OrderState, snapshot: Option<Snapshot>, age: int): Pass {
    if snapshot.None? then
      if seen.PendingSubmission? && PENDING_GRACE_MS < age then
        Replayed(s, false, [Event(OrderSubmitFailed, id, Some(ReconSubmitFailed(id)), None)])
      else Pass(s, false)
    else
      match SnapshotEvents(snapshot.value)
      case None => Pass(s, true)
      case Some(events) => Replayed(s, seen.CancelPending?, events)
  }

  /** The replay of one more event of the list. */
  lemma ReplayedNext(s: State, cancelling: bool, events: seq<Event>, n: nat)
    requires n < |events|
    ensures var before, e := Replayed(s, cancelling, events[..n]), events[n];
      Replayed(s, cancelling, events[..n + 1]) ==
        if before.threw || (cancelling && PreCancel(e.kind)) then before
        else
          match EventApplied(before.db, e)
          case Abort => Pass(before.db, true)
          case Commit(next) => Pass(next, false)
  {
    hide EventApplied, PreCancel;
    assert events[..n + 1][..n] == events[..n];
  }

  method ReplayEvents(tx: Database, cancelling: bool, events: seq<Event>) returns (threw: bool)
    modifies tx
    ensures Pass(tx.Contents(), threw) == Replayed(old(tx.Contents()), cancelling, events)
  {
    NothingReplayed(tx.Contents(), cancelling);
    hide Replayed, EventApplied;
    var i := 0;
    while i < |events|
      invariant i <= |events|
      invariant Pass(tx.Contents(), false) == Replayed(old(tx.Contents()), cancelling, events[..i])
    {
      ReplayedNext(old(tx.Contents()), cancelling, events, i);
      if !(cancelling && PreCancel(events[i].kind)) {
        var ok := OnBrokerEvent(tx, events[i]);
        if !ok {
          ThrownPassStays(old(tx.Contents()), cancelling, events, i + 1);
          return true;
        }
      }
      i := i + 1;
    }
    assert events[..i] == events;
    return false;
  }

  lemma {:induction false} ThrownPassStays(s: State, cancelling: bool, events: seq<Event>, n: nat)
    requires n <= |events| && Replayed(s, cancelling, events[..n]).threw
    ensures Replayed(s, cancelling, events) == Replayed(s, cancelling, events[..n])
    decreases |events| - n
  {
    hide Replayed, EventApplied;
    if n == |events| {
      assert events[..n] == events;
    } else {
      ReplayedNext(s, cancelling, events, n);
      ThrownPassStays(s, cancelling, events, n + 1);
    }
  }

  /**
   * `resend` asks the caller to send the venue cancel again; it never changes state itself. `still`
   * is how long the order has been unchanged once the replay is done.
   */
  method ReconcileOrder(tx: Database, id: OrderId, seen: OrderState, snapshot: Option<Snapshot>, age: int, still: int)
    returns (threw: bool, resend: bool)
    modifies tx
    ensures Pass(tx.Contents(), threw) == OrderReconciled(old(tx.Contents()), id, seen, snapshot, age)
    ensures resend <==>
      && !threw && snapshot.Some? && seen.CancelPending? && RESEND_AFTER_MS < still
      && id < |tx.orders| && tx.orders[id].state.CancelPending?
  {
    hide Replayed;
    resend := false;
    if snapshot.None? {
      threw := false;
      if seen.PendingSubmission? && PENDING_GRACE_MS < age {
        threw := ReplayEvents(tx, false, [Event(OrderSubmitFailed, id, Some(ReconSubmitFailed(id)), None)]);
      }
      return;
    }
    var events := EventsFromSnapshot(snapshot.value);
    if events.None? { return true, false; }
    threw := ReplayEvents(tx, seen.CancelPending?, events.value);
    if !threw && seen.CancelPending? && id < |tx.orders| {
      resend := tx.orders[id].state.CancelPending? && RESEND_AFTER_MS < still;
    }
  }

  // ---- convergence ----

  /** Where the venue says an order is; fills come as activities, and other statuses say nothing. */
  function VenueState(status: VendorStatus): Option<OrderState> {
    match status
    case PendingNew => Some(Acknowledged)
    case NewAtVenue => Some(Accepted)
    case AcceptedAtVenue => Some(Accepted)
    case PartiallyFilledAtVenue => Some(PartiallyFilled)
    case FilledAtVenue => Some(Filled)
    case PendingCancel => Some(CancelPending)
    case CanceledAtVenue => Some(Cancelled)
    case RejectedAtVenue => Some(Rejected)
    case ExpiredAtVenue => Some(Expired)
    case DoneForDay => Some(Expired)
    case OtherStatus => None
  }

  /** The venue has ended the order after taking it. */
  predicate IsOutcome(status: VendorStatus) {
    var at := VenueState(status);
    at.Some? && (at.value.Filled? || at.value.Cancelled? || at.value.Expired?)
  }

  function OutcomeState(status: VendorStatus): OrderState
    requires IsOutcome(status)
  {
    VenueState(status).value
  }

  /** A recon envelope is recorded only together with the execution it names. */
  ghost predicate LabelsHonest(s: State) {
    forall i | 0 <= i < |s.audit| ::
      s.audit[i].ext.Some? && s.audit[i].ext.value.ReconFill? ==> Booked(s.fills, s.audit[i].ext.value.exec)
  }

  /** Only fill events of an execution carry its recon envelope (eventsFromSnapshot is their one source). */
  ghost predicate WellLabelled(a: Action) {
    a.Deliver? && a.event.ext.Some? && a.event.ext.value.ReconFill? ==>
      a.event.IsFill() && a.event.execution.Some? && a.event.execution.value.id == a.event.ext.value.exec
  }

  lemma LabelsKept(s: State, a: Action)
    requires LabelsHonest(s) && WellLabelled(a)
    ensures LabelsHonest(Next(s, a))
  {
    hide Advance, Repositioned, LedgerTail, Notional, InferredRows, Next, Effect;
    var t, next := Transitions(s, a), Next(s, a);
    StepGrows(s, a);
    BookedStays(s, next);
    if t.OrderEffect? {
      StepsInFull(s, a);
      var advanced := Advance(s.orders[t.id], t.kind, t.fill);
      InferredUnlabelled(t.id, if advanced.Moved? then advanced.steps else []);
      if t.fill.Some? { assert next.fills[|s.fills|].exec == t.fill.value.id; }
    } else {
      OtherStepsInFull(s, a);
    }
  }

  lemma BookedStays(s: State, next: State)
    requires s.fills <= next.fills
    ensures forall x | Booked(s.fills, x) :: Booked(next.fills, x)
  {
  }

  lemma {:induction false} InferredUnlabelled(id: OrderId, steps: seq<Step>)
    ensures forall i | 0 <= i < |InferredRows(id, steps)| :: InferredRows(id, steps)[i].ext.None?
  {
    if steps != [] { InferredUnlabelled(id, steps[..|steps| - 1]); }
  }

  /**
   * The order is working (past PENDING_SUBMISSION) and the venue's executions `fills`, in
   * transaction-time order, are booked up to `done` and no further.
   */
  ghost predicate Behind(s: State, id: OrderId, fills: seq<Activity>, done: nat) {
    && done <= |fills| && id < |s.orders|
    && WholeCents(s.positions) && OrderOk(s.orders[id]) && LabelsHonest(s)
    && s.orders[id].state.Open() && !s.orders[id].state.PendingSubmission?
    && s.orders[id].filledQty == SumOf(fills[..done], QtyOf)
    && SumOf(fills, QtyOf) <= s.orders[id].qty
    && (s.orders[id].side.Sell? ==> s.orders[id].qty - s.orders[id].filledQty <= HeldQty(s, s.orders[id].instrument))
    && (forall i | 0 <= i < |fills| :: 0 < fills[i].qty && 0 < Notional(fills[i].price, fills[i].qty))
    && (forall i, j | 0 <= i < j < |fills| :: fills[i].exec != fills[j].exec)
    && (forall i | 0 <= i < done :: Booked(s.fills, fills[i].exec))
    && (forall i | done <= i < |fills| :: !Booked(s.fills, fills[i].exec))
  }

  lemma BehindInRange(s: State, id: OrderId, fills: seq<Activity>, done: nat)
    requires Behind(s, id, fills, done)
    ensures done <= |fills| && id < |s.orders|
  {
  }

  lemma {:induction false} PartOfSum(fills: seq<Activity>, n: nat)
    requires n <= |fills|
    ensures 0 <= SumOf(fills[..n], QtyOf) <= SumOf(fills, QtyOf)
    decreases |fills| - n
  {
    SumNonNegative(fills[..n], QtyOf);
    if n == |fills| {
      assert fills[..n] == fills;
    } else {
      assert fills[..n + 1] == fills[..n] + [fills[n]];
      SumAppend(fills[..n], fills[n], QtyOf);
      PartOfSum(fills, n + 1);
    }
  }

  function Booking(o: Order, id: OrderId, a: Activity): Fill {
    FillRow(o, id, Execution(a.exec, a.qty, a.price, 0, a.time, a.tieUp))
  }

  function Bookings(o: Order, id: OrderId, fills: seq<Activity>): seq<Fill> {
    seq(|fills|, i requires 0 <= i < |fills| => Booking(o, id, fills[i]))
  }

  /** The order ended in `state` with the venue's quantity, and holds no cash back. */
  ghost predicate Ended(o: Order, state: OrderState, qty: int) {
    o.state == state && o.filledQty == qty && o.reservedCash == 0
  }

  /** The bookkeeping of a fee-free fill the position can take never throws. */
  lemma PositionTakes(s: State, o: Order, qty: nat, amount: Money)
    requires WholeCents(s.positions) && 0 < qty && 0 <= amount
    requires o.side.Sell? ==> qty <= HeldQty(s, o.instrument)
    ensures var next := Repositioned(Lookup(s.positions, o.instrument), o.side, qty, amount, 0);
      && next.Some?
      && WholeCents(s.positions[o.instrument := next.value])
      && next.value.qty == if o.side.Buy? then HeldQty(s, o.instrument) + qty else HeldQty(s, o.instrument) - qty
  {
    hide SellFill;
    if o.side.Sell? { SaleBalances(s.positions[o.instrument], qty, amount, 0); }
  }

  /** Any working order accepts a fill that does not overfill it. */
  lemma WorkingTakesFill(o: Order, kind: EventKind, x: Execution)
    requires OrderOk(o) && o.state.Open() && kind.IsFill()
    requires o.filledQty + x.qty <= o.qty && (kind.OrderFilled? ==> o.filledQty + x.qty == o.qty)
    ensures var r := Advance(o, kind, Some(x));
      && r.Moved? && OrderOk(r.order)
      && r.order == o.(state := kind.Target(), filledQty := o.filledQty + x.qty, reservedCash := r.order.reservedCash)
  {
  }

  /** The next missing execution is accepted and booked, and the order is one further along. */
  lemma MissingFillBooks(s: State, id: OrderId, fills: seq<Activity>, done: nat, kind: EventKind) returns (next: State)
    requires Behind(s, id, fills, done) && done < |fills| && kind.IsFill()
    requires kind.OrderFilled? ==> done == |fills| - 1 && SumOf(fills, QtyOf) == s.orders[id].qty
    ensures EventApplied(s, FillEvent(id, fills[done], kind)) == Commit(next)
    ensures
      && next.fills == s.fills + [Booking(s.orders[id], id, fills[done])]
      && |next.orders| == |s.orders|
      && next.orders[id].side == s.orders[id].side && next.orders[id].instrument == s.orders[id].instrument
      && next.orders[id].qty == s.orders[id].qty
      && (kind.OrderFilled? ==> Ended(next.orders[id], Filled, SumOf(fills, QtyOf)))
      && (kind.OrderPartiallyFilled? ==> Behind(next, id, fills, done + 1))
      && (forall x :: Seen(next.audit, x) <==> Seen(s.audit, x) || x == ReconFill(fills[done].exec))
  {
    hide EventApplied, Advance, Repositioned;
    var o, a := s.orders[id], fills[done];
    var e := FillEvent(id, a, kind);
    var x := e.execution.value;
    QtyAfter(fills, done);
    WorkingTakesFill(o, kind, x);
    PositionTakes(s, o, x.qty, Notional(x.price, x.qty));
    next := EventBooks(s, e);
    if kind.OrderPartiallyFilled? { StillBehind(s, id, fills, done, next); }
  }

  lemma QtyAfter(fills: seq<Activity>, done: nat)
    requires done < |fills|
    ensures SumOf(fills[..done + 1], QtyOf) == SumOf(fills[..done], QtyOf) + fills[done].qty <= SumOf(fills, QtyOf)
    ensures done == |fills| - 1 ==> SumOf(fills[..done + 1], QtyOf) == SumOf(fills, QtyOf)
  {
    hide SumOf;
    assert fills[..done + 1] == fills[..done] + [fills[done]];
    SumAppend(fills[..done], fills[done], QtyOf);
    PartOfSum(fills, done + 1);
    if done == |fills| - 1 { assert fills[..done + 1] == fills; }
  }

  /** What one more booked execution leaves to be behind on. */
  lemma StillBehind(s: State, id: OrderId, fills: seq<Activity>, done: nat, next: State)
    requires Behind(s, id, fills, done) && done < |fills| && LabelsHonest(next) && |next.orders| == |s.orders|
    requires var o, row := s.orders[id], next.orders[id];
      && OrderOk(row)
      && row == o.(state := PartiallyFilled, filledQty := o.filledQty + fills[done].qty, reservedCash := row.reservedCash)
      && next.fills == s.fills + [Booking(o, id, fills[done])]
      && WholeCents(next.positions)
      && (o.side.Sell? ==> HeldQty(next, o.instrument) == HeldQty(s, o.instrument) - fills[done].qty)
    ensures Behind(next, id, fills, done + 1)
  {
    QtyAfter(fills, done);
    NewlyBooked(s.fills, Booking(s.orders[id], id, fills[done]));
  }

  lemma NewlyBooked(fills: seq<Fill>, row: Fill)
    ensures forall x :: Booked(fills + [row], x) <==> Booked(fills, x) || x == row.exec
  {
    forall x | Booked(fills, x) ensures Booked(fills + [row], x) {
      var i :| 0 <= i < |fills| && fills[i].exec == x;
      assert (fills + [row])[i].exec == x;
    }
    assert (fills + [row])[|fills|].exec == row.exec;
  }

  /** An accepted fill with a takeable position commits, with exactly these tables. */
  lemma EventBooks(s: State, e: Event) returns (next: State)
    requires LabelsHonest(s) && WellLabelled(Deliver(e))
    requires e.order < |s.orders| && e.IsFill() && e.execution.Some? && e.ext.Some? && !Seen(s.audit, e.ext.value)
    requires !Booked(s.fills, e.execution.value.id) && 0 < e.execution.value.qty && e.execution.value.fee == 0
    requires 0 < Notional(e.execution.value.price, e.execution.value.qty)
    requires Advance(s.orders[e.order], e.kind, e.execution).Moved?
    requires var o, x := s.orders[e.order], e.execution.value;
      Repositioned(Lookup(s.positions, o.instrument), o.side, x.qty, Notional(x.price, x.qty), x.fee).Some?
    ensures EventApplied(s, e) == Commit(next)
    ensures var o, x := s.orders[e.order], e.execution.value;
      && LabelsHonest(next)
      && next.orders == s.orders[e.order := Advance(o, e.kind, e.execution).order]
      && next.fills == s.fills + [FillRow(o, e.order, x)]
      && next.positions == s.positions[o.instrument :=
           Repositioned(Lookup(s.positions, o.instrument), o.side, x.qty, Notional(x.price, x.qty), x.fee).value]
      && (forall y :: Seen(next.audit, y) <==> Seen(s.audit, y) || y == e.ext.value)
  {
    hide Notional, LabelsHonest, SellFill;
    var o := s.orders[e.order];
    var steps := Advance(o, e.kind, e.execution).steps;
    var mid := Transitioned(s, e.order, e.kind, FromBroker, e.ext, e.execution).state;
    FillEffectsInFull(mid, e.order, e.execution.value);
    InferredUnlabelled(e.order, steps);
    var rows := [MainRow(o, e.order, e.kind, FromBroker, e.ext, steps)] + InferredRows(e.order, steps);
    assert mid.audit == s.audit + rows;
    SeenAppend(s.audit, rows);
    assert rows[0].ext == Some(e.ext.value);
    next := Next(s, Deliver(e));
    LabelsKept(s, Deliver(e));
  }

  lemma SeenAppend(audit: seq<AuditRow>, rows: seq<AuditRow>)
    ensures forall x :: Seen(audit + rows, x) <==> Seen(audit, x) || Seen(rows, x)
  {
    forall x ensures Seen(audit + rows, x) <==> Seen(audit, x) || Seen(rows, x) {
      if i :| 0 <= i < |audit| && audit[i].ext == Some(x) { assert (audit + rows)[i].ext == Some(x); }
      if i :| 0 <= i < |rows| && rows[i].ext == Some(x) { assert (audit + rows)[|audit| + i].ext == Some(x); }
    }
  }

  // ---- one pass over the snapshot ----

  /** How the order stands after the first `n` fill events of a pass that began `done` executions in. */
  ghost predicate PassedFills(s: State, id: OrderId, status: VendorStatus, fills: seq<Activity>, done: nat, n: nat,
                              p: Pass)
    requires done <= |fills| && n <= |fills| && id < |s.orders|
  {
    && !p.threw
    && (n <= done ==> p.db == s)
    && (done < n ==>
      && id < |p.db.orders|
      && p.db.fills == s.fills + Bookings(s.orders[id], id, fills[done..n])
      && p.db.orders[id].side == s.orders[id].side && p.db.orders[id].instrument == s.orders[id].instrument
      && p.db.orders[id].qty == s.orders[id].qty
      && (n == |fills| && status.FilledAtVenue? ==> Ended(p.db.orders[id], Filled, SumOf(fills, QtyOf)))
      && (n < |fills| || !status.FilledAtVenue? ==> Behind(p.db, id, fills, n))
      && (forall x :: Seen(p.db.audit, x) ==> Seen(s.audit, x) || x.ReconFill?))
  }

  lemma NoBookings(o: Order, id: OrderId, none: seq<Activity>)
    requires none == []
    ensures Bookings(o, id, none) == []
  {
  }

  lemma BookingsExtend(o: Order, id: OrderId, fills: seq<Activity>, from: nat, n: nat)
    requires from <= n < |fills|
    ensures Bookings(o, id, fills[from..n + 1]) == Bookings(o, id, fills[from..n]) + [Booking(o, id, fills[n])]
  {
  }

  lemma ReplayStep(s: State, cancelling: bool, before: seq<Event>, e: Event, next: State)
    requires !Replayed(s, cancelling, before).threw && !PreCancel(e.kind)
    requires EventApplied(Replayed(s, cancelling, before).db, e) == Commit(next)
    ensures Replayed(s, cancelling, before + [e]) == Pass(next, false)
  {
  }

  /** The pass after one more missing execution. */
  lemma PassAdvances(s: State, id: OrderId, status: VendorStatus, fills: seq<Activity>, done: nat, n: nat, before: Pass)
    returns (next: State)
    requires Behind(s, id, fills, done) && done <= n < |fills|
    requires status.FilledAtVenue? ==> SumOf(fills, QtyOf) == s.orders[id].qty
    requires PassedFills(s, id, status, fills, done, n, before)
    ensures EventApplied(before.db, FillEvents(id, status, fills)[n]) == Commit(next)
    ensures PassedFills(s, id, status, fills, done, n + 1, Pass(next, false))
  {
    hide EventApplied, Behind, Seen, Ended, Bookings;
    BehindInRange(s, id, fills, done);
    NoBookings(s.orders[id], id, fills[done..done]);
    BookingsExtend(s.orders[id], id, fills, done, n);
    var soFar, row := Bookings(s.orders[id], id, fills[done..n]), Booking(s.orders[id], id, fills[n]);
    assert before.db.fills == s.fills + soFar;
    assert s.fills + (soFar + [row]) == (s.fills + soFar) + [row];
    next := MissingFillBooks(before.db, id, fills, n, FillKind(status, n == |fills| - 1));
  }

  lemma BookedAlready(s: State, id: OrderId, status: VendorStatus, fills: seq<Activity>, done: nat, n: nat)
    requires Behind(s, id, fills, done) && n < done
    ensures EventApplied(s, FillEvents(id, status, fills)[n]) == Commit(s)
  {
    hide EventApplied;
    AbsorbedIsNoOp(s, FillEvents(id, status, fills)[n]);
  }

  /** One fill event of the pass: a duplicate of what is booked, or the next missing execution. */
  lemma FillOfPass(s: State, id: OrderId, cancelling: bool, status: VendorStatus,
                   fills: seq<Activity>, done: nat, n: nat, before: seq<Event>)
    requires Behind(s, id, fills, done) && n < |fills|
    requires status.FilledAtVenue? ==> SumOf(fills, QtyOf) == s.orders[id].qty
    requires PassedFills(s, id, status, fills, done, n, Replayed(s, cancelling, before))
    ensures PassedFills(s, id, status, fills, done, n + 1, Replayed(s, cancelling, before + [FillEvents(id, status, fills)[n]]))
  {
    var e := FillEvents(id, status, fills)[n];
    hide EventApplied, Behind, Replayed, Seen, Ended, Bookings;
    BehindInRange(s, id, fills, done);
    if n < done {
      BookedAlready(s, id, status, fills, done, n);
      ReplayStep(s, cancelling, before, e, s);
    } else {
      var next := PassAdvances(s, id, status, fills, done, n, Replayed(s, cancelling, before));
      ReplayStep(s, cancelling, before, e, next);
    }
  }

  lemma NothingReplayed(s: State, cancelling: bool)
    ensures Replayed(s, cancelling, []) == Pass(s, false)
  {
  }

  lemma {:induction false} FillsOfPass(s: State, id: OrderId, cancelling: bool, status: VendorStatus,
                                       fills: seq<Activity>, done: nat, n: nat)
    requires Behind(s, id, fills, done) && n <= |fills|
    requires status.FilledAtVenue? ==> SumOf(fills, QtyOf) == s.orders[id].qty
    ensures PassedFills(s, id, status, fills, done, n, Replayed(s, cancelling, FillEvents(id, status, fills)[..n]))
  {
    var events := FillEvents(id, status, fills);
    hide Replayed;
    hide Behind;
    if n == 0 {
      NothingReplayed(s, cancelling);
      assert events[..n] == [];
    } else {
      FillsOfPass(s, id, cancelling, status, fills, done, n - 1);
      FillOfPass(s, id, cancelling, status, fills, done, n - 1, events[..n - 1]);
      assert events[..n] == events[..n - 1] + [events[n - 1]];
    }
  }

  lemma AllBooked(s: State, id: OrderId, fills: seq<Activity>)
    requires Behind(s, id, fills, |fills|)
    ensures id < |s.orders| && OrderOk(s.orders[id]) && s.orders[id].state.Open() && !s.orders[id].state.PendingSubmission?
    ensures s.orders[id].filledQty == SumOf(fills, QtyOf)
  {
    hide LabelsHonest, WholeCents, HeldQty, Notional, Booked, OrderOk;
    assert fills[..|fills|] == fills;
  }

  lemma WorkingEnds(o: Order, kind: EventKind)
    requires OrderOk(o) && o.state.Open() && !o.state.PendingSubmission? && (kind.OrderCancelled? || kind.OrderExpired?)
    ensures Advance(o, kind, None).Moved?
    ensures Advance(o, kind, None).order == o.(state := kind.Target(), reservedCash := 0)
  {
    AdvanceKeepsOrder(o, kind, None);
  }

  /** An accepted event without an execution changes the order row and the audit trail. */
  lemma StatusApplied(s: State, e: Event)
    requires e.order < |s.orders| && !e.IsFill() && e.ext.Some? && !Seen(s.audit, e.ext.value)
    requires Advance(s.orders[e.order], e.kind, None).Moved?
    ensures EventApplied(s, e) == Commit(Next(s, Deliver(e)))
    ensures var next := Next(s, Deliver(e));
      next.fills == s.fills && next.orders == s.orders[e.order := Advance(s.orders[e.order], e.kind, None).order]
  {
    hide Advance, Seen, InferredRows;
  }

  /** A working order accepts the venue's terminal status, and releases what it held. */
  lemma StatusEnds(s: State, id: OrderId, fills: seq<Activity>, status: VendorStatus) returns (next: State)
    requires Behind(s, id, fills, |fills|) && IsOutcome(status) && !status.FilledAtVenue?
    requires !Seen(s.audit, ReconStatus(id, status))
    ensures EventApplied(s, StatusEvents(id, status)[0]) == Commit(next)
    ensures next.fills == s.fills && id < |next.orders|
    ensures Ended(next.orders[id], OutcomeState(status), SumOf(fills, QtyOf))
  {
    hide Behind, Advance, EventApplied, Next, Seen;
    AllBooked(s, id, fills);
    var e := StatusEvents(id, status)[0];
    WorkingEnds(s.orders[id], e.kind);
    StatusApplied(s, e);
    next := Next(s, Deliver(e));
  }

  /** The status event that closes a pass on a cancelled or expired order. */
  lemma StatusOfPass(s: State, id: OrderId, cancelling: bool, status: VendorStatus, fills: seq<Activity>, done: nat,
                     events: seq<Event>)
    requires Behind(s, id, fills, done) && IsOutcome(status) && !status.FilledAtVenue?
    requires PassedFills(s, id, status, fills, done, |fills|, Replayed(s, cancelling, events))
    requires !Seen(s.audit, ReconStatus(id, status))
    ensures var mid, p := Replayed(s, cancelling, events), Replayed(s, cancelling, events + StatusEvents(id, status));
      && !p.threw && id < |p.db.orders| && p.db.fills == mid.db.fills
      && Ended(p.db.orders[id], OutcomeState(status), SumOf(fills, QtyOf))
  {
    hide EventApplied, Replayed, Behind, Seen, Ended, Bookings;
    BehindInRange(s, id, fills, done);
    var next := StatusEnds(Replayed(s, cancelling, events).db, id, fills, status);
    ReplayStep(s, cancelling, events, StatusEvents(id, status)[0], next);
  }

  /** What the pass achieves: each missing execution booked once, and the order ended unless stuck. */
  ghost predicate Converged(s: State, id: OrderId, status: VendorStatus, fills: seq<Activity>, done: nat, p: Pass)
    requires IsOutcome(status) && done <= |fills| && id < |s.orders|
  {
    && !p.threw && id < |p.db.orders|
    && p.db.fills == s.fills + Bookings(s.orders[id], id, fills[done..])
    && (!(status.FilledAtVenue? && done == |fills|) ==> Ended(p.db.orders[id], OutcomeState(status), SumOf(fills, QtyOf)))
    && (status.FilledAtVenue? && done == |fills| ==> p.db == s)
  }

  lemma PassConverges(s: State, id: OrderId, cancelling: bool, status: VendorStatus, fills: seq<Activity>, done: nat)
    requires Behind(s, id, fills, done) && IsOutcome(status) && !Seen(s.audit, ReconStatus(id, status))
    requires status.FilledAtVenue? ==> SumOf(fills, QtyOf) == s.orders[id].qty
    ensures Converged(s, id, status, fills, done,
                      Replayed(s, cancelling, FillEvents(id, status, fills) + StatusEvents(id, status)))
  {
    hide Behind, Replayed, Seen, Ended;
    BehindInRange(s, id, fills, done);
    var events := FillEvents(id, status, fills);
    FillsOfPass(s, id, cancelling, status, fills, done, |fills|);
    assert events[..|fills|] == events && fills[done..|fills|] == fills[done..];
    if done == |fills| { assert s.fills + Bookings(s.orders[id], id, fills[done..]) == s.fills; }
    if status.FilledAtVenue? {
      assert events + StatusEvents(id, status) == events;
    } else {
      StatusOfPass(s, id, cancelling, status, fills, done, events);
    }
  }

  /** The whole pass never throws, and books exactly the missing executions, each once. */
  lemma PassBooksMissing(s: State, id: OrderId, seen: OrderState, v: Snapshot, age: int, done: nat)
    requires v.order == id && IsOutcome(v.status)
    requires var fills := OrderFills(v.activities, id);
      && Behind(s, id, fills, done) && v.filledQty == SumOf(fills, QtyOf)
      && (v.status.FilledAtVenue? ==> SumOf(fills, QtyOf) == s.orders[id].qty)
    requires !Seen(s.audit, ReconStatus(id, v.status))
    ensures Converged(s, id, v.status, OrderFills(v.activities, id), done, OrderReconciled(s, id, seen, Some(v), age))
  {
    PassConverges(s, id, seen.CancelPending?, v.status, OrderFills(v.activities, id), done);
  }

  /**
   * Reconciliation converges: one pass ends the order in the venue's terminal state with the
   * venue's quantity and a zero reservation if and only if it is not the case that the venue says
   * "filled" and every execution had already been booked. In that one case the pass changes
   * nothing: the last execution came in as a partial fill, its replay is a duplicate, and the
   * status alone carries no event, so the order stays open.
   */
  lemma ConvergesIff(s: State, id: OrderId, seen: OrderState, v: Snapshot, age: int, done: nat)
    requires v.order == id && IsOutcome(v.status)
    requires var fills := OrderFills(v.activities, id);
      && Behind(s, id, fills, done) && v.filledQty == SumOf(fills, QtyOf)
      && (v.status.FilledAtVenue? ==> SumOf(fills, QtyOf) == s.orders[id].qty)
    requires !Seen(s.audit, ReconStatus(id, v.status))
    ensures var fills, p := OrderFills(v.activities, id), OrderReconciled(s, id, seen, Some(v), age);
      && !p.threw && id < |p.db.orders|
      && (Ended(p.db.orders[id], OutcomeState(v.status), SumOf(fills, QtyOf)) <==>
          !(v.status.FilledAtVenue? && done == |fills|))
  {
    PassBooksMissing(s, id, seen, v, age, done);
  }

  /**
   * How the stuck case comes about, whatever was booked before: a pass that sees every execution
   * while the status still says "partially filled", then a pass that sees "filled". The order is
   * left open with its whole quantity filled, and every later such pass leaves it so.
   */
  lemma EarlyActivitiesStick(s: State, id: OrderId, fills: seq<Activity>, done: nat, first: bool, second: bool)
    requires Behind(s, id, fills, done) && done < |fills| && SumOf(fills, QtyOf) == s.orders[id].qty
    requires !Seen(s.audit, ReconStatus(id, FilledAtVenue))
    ensures var mid := Replayed(s, first, FillEvents(id, PartiallyFilledAtVenue, fills));
      && !mid.threw && id < |mid.db.orders|
      && mid.db.orders[id].state.Open() && mid.db.orders[id].filledQty == mid.db.orders[id].qty == s.orders[id].qty
      && Replayed(mid.db, second, FillEvents(id, FilledAtVenue, fills) + StatusEvents(id, FilledAtVenue)) == Pass(mid.db, false)
  {
    hide Replayed, Behind, Bookings, SumOf, Seen;
    BehindInRange(s, id, fills, done);
    FillsOfPass(s, id, first, PartiallyFilledAtVenue, fills, done, |fills|);
    var early := FillEvents(id, PartiallyFilledAtVenue, fills);
    assert early[..|fills|] == early;
    var mid := Replayed(s, first, early).db;
    AllBooked(mid, id, fills);
    PassConverges(mid, id, second, FilledAtVenue, fills, |fills|);
  }

  /** The status event of a snapshot takes the order where the venue says it is. */
  lemma StatusIsWhere(status: VendorStatus)
    ensures StatusEvent(status).Some? <==>
      VenueState(status).Some? && !VenueState(status).value.PartiallyFilled? && !VenueState(status).value.Filled?
    ensures StatusEvent(status).Some? ==> Arrives(StatusEvent(status).value, VenueState(status).value)
  {
  }

  /**
   * A first snapshot without executions takes the order where the venue says it is if the order
   * takes that event, and throws exactly if it is refused; a status that names no such state changes
   * nothing, nor does one from before a cancel that is on its way.
   */
  lemma QuietSnapshot(s: State, id: OrderId, seen: OrderState, v: Snapshot, age: int, kind: EventKind)
    requires id < |s.orders| && OrderOk(s.orders[id])
    requires v.order == id && OrderFills(v.activities, id) == [] && v.filledQty == 0 && !Seen(s.audit, ReconStatus(id, v.status))
    requires VenueState(v.status).Some? ==> Arrives(kind, VenueState(v.status).value)
    ensures var p, o, at := OrderReconciled(s, id, seen, Some(v), age), s.orders[id], VenueState(v.status);
      if at.None? || at.value.PartiallyFilled? || at.value.Filled?
         || (seen.CancelPending? && (at.value.Acknowledged? || at.value.Accepted?)) then p == Pass(s, false)
      else if Refused(o, kind, 0) then p == Pass(s, true)
      else !p.threw && |p.db.orders| == |s.orders| && RowAfter(o, kind, 0, p.db.orders[id]) && p.db.fills == s.fills
  {
    hide EventApplied, Seen, OrderFills, Refused, RowAfter, Replayed, SnapshotEvents, OrderOk, VenueState, StatusEvent;
    StatusIsWhere(v.status);
    QuietEvents(v);
    NothingReplayed(s, seen.CancelPending?);
    if StatusEvent(v.status).Some? {
      var e := StatusEvents(id, v.status)[0];
      OnlyWhere(e.kind, kind, VenueState(v.status).value);
      OneReplayed(s, seen.CancelPending?, e);
      StatusTakenOrRefused(s, e);
    }
  }

  lemma OnlyWhere(kind: EventKind, other: EventKind, at: OrderState)
    requires Arrives(kind, at) && Arrives(other, at)
    ensures kind == other && (PreCancel(kind) <==> at.Acknowledged? || at.Accepted?)
      && (kind.IsFill() <==> at.PartiallyFilled? || at.Filled?)
  {
  }

  lemma QuietEvents(v: Snapshot)
    requires OrderFills(v.activities, v.order) == [] && v.filledQty == 0
    ensures SnapshotEvents(v) == Some(StatusEvents(v.order, v.status))
  {
    hide OrderFills;
    assert FillEvents(v.order, v.status, []) + StatusEvents(v.order, v.status) == StatusEvents(v.order, v.status);
  }

  lemma OneReplayed(s: State, cancelling: bool, e: Event)
    ensures Replayed(s, cancelling, [e]) ==
      if cancelling && PreCancel(e.kind) then Pass(s, false)
      else match EventApplied(s, e) case Abort => Pass(s, true) case Commit(next) => Pass(next, false)
  {
    hide EventApplied;
    NothingReplayed(s, cancelling);
    assert [e][..0] == [];
  }

  lemma StatusTakenOrRefused(s: State, e: Event)
    requires e.order < |s.orders| && OrderOk(s.orders[e.order]) && !e.IsFill() && e.ext.Some? && !Seen(s.audit, e.ext.value)
    ensures var o, applied := s.orders[e.order], EventApplied(s, e);
      if Refused(o, e.kind, 0) then applied.Abort?
      else applied.Commit? && applied.state.fills == s.fills && |applied.state.orders| == |s.orders|
           && RowAfter(o, e.kind, 0, applied.state.orders[e.order])
  {
    hide Seen, Advance, Refused, RowAfter, Audits;
    TransitionSays(s, e.order, e.kind, FromBroker, e.ext, None);
  }

  // ---- convergence from every reachable state ----

  function OwnFills(fills: seq<Fill>, id: OrderId): seq<Fill> {
    if fills == [] then []
    else OwnFills(fills[..|fills| - 1], id) + if fills[|fills| - 1].order == id then [fills[|fills| - 1]] else []
  }

  function FillQty(f: Fill): int { f.qty }

  lemma {:induction false} OwnFillsSum(fills: seq<Fill>, id: OrderId)
    ensures SumOf(OwnFills(fills, id), FillQty) == SumOf(fills, FilledBy(id))
  {
    if fills != [] {
      var rest, last := fills[..|fills| - 1], fills[|fills| - 1];
      OwnFillsSum(rest, id);
      SumAppend(OwnFills(rest, id), last, FillQty);
      assert OwnFills(rest, id) + [] == OwnFills(rest, id);
    }
  }

  lemma {:induction false} OwnFillsBooked(fills: seq<Fill>, id: OrderId)
    ensures forall f <- OwnFills(fills, id) :: Booked(fills, f.exec)
  {
    if fills != [] {
      var rest, last := fills[..|fills| - 1], fills[|fills| - 1];
      OwnFillsBooked(rest, id);
      NewlyBooked(rest, last);
      assert fills == rest + [last];
    }
  }

  lemma {:induction false} SameQuantities(own: seq<Fill>, fills: seq<Activity>)
    requires |own| == |fills| && forall k | 0 <= k < |own| :: own[k].qty == fills[k].qty
    ensures SumOf(own, FillQty) == SumOf(fills, QtyOf)
  {
    if own != [] { SameQuantities(own[..|own| - 1], fills[..|fills| - 1]); }
  }

  /** What the books hold for the order is exactly the venue's first `done` executions. */
  ghost predicate BookedPrefix(s: State, id: OrderId, fills: seq<Activity>, done: nat) {
    && done <= |fills| && |OwnFills(s.fills, id)| == done
    && (forall k | 0 <= k < done ::
         OwnFills(s.fills, id)[k].exec == fills[k].exec && OwnFills(s.fills, id)[k].qty == fills[k].qty)
    && (forall k | done <= k < |fills| :: !Booked(s.fills, fills[k].exec))
  }

  /** The venue's executions are real, apart from one another, and within the order. */
  ghost predicate Executions(fills: seq<Activity>, qty: nat) {
    && (forall i | 0 <= i < |fills| :: 0 < fills[i].qty && 0 < Notional(fills[i].price, fills[i].qty))
    && (forall i, j | 0 <= i < j < |fills| :: fills[i].exec != fills[j].exec)
    && SumOf(fills, QtyOf) <= qty
  }

  ghost predicate AllWellLabelled(actions: seq<Action>) { forall k | 0 <= k < |actions| :: WellLabelled(actions[k]) }

  lemma {:induction false} EveryRunLabels(s: State, actions: seq<Action>)
    requires Initial(s) && AllWellLabelled(actions)
    ensures LabelsHonest(Run(s, actions))
  {
    if actions != [] {
      EveryRunLabels(s, actions[..|actions| - 1]);
      LabelsKept(Run(s, actions[..|actions| - 1]), actions[|actions| - 1]);
    }
  }

  lemma PrefixIsBooked(s: State, id: OrderId, fills: seq<Activity>, done: nat)
    requires BookedPrefix(s, id, fills, done)
    ensures SumOf(fills[..done], QtyOf) == SumOf(s.fills, FilledBy(id))
    ensures forall k | 0 <= k < done :: Booked(s.fills, fills[k].exec)
  {
    var own := OwnFills(s.fills, id);
    OwnFillsSum(s.fills, id);
    OwnFillsBooked(s.fills, id);
    SameQuantities(own, fills[..done]);
    forall k | 0 <= k < done ensures Booked(s.fills, fills[k].exec) { assert own[k] in own; }
  }

  lemma SoundIsBehind(s: State, id: OrderId, fills: seq<Activity>, done: nat)
    requires WholeCents(s.positions) && OrdersOk(s) && LabelsHonest(s) && FilledExact(s) && SellsCovered(s)
    requires id < |s.orders| && s.orders[id].state.Open() && !s.orders[id].state.PendingSubmission?
    requires BookedPrefix(s, id, fills, done) && Executions(fills, s.orders[id].qty)
    ensures Behind(s, id, fills, done)
  {
    hide LabelsHonest, WholeCents, OrderOk, SumOf, Notional;
    var i := s.orders[id].instrument;
    SellHoldsNonNegative(s, i);
    assert SellHold(i)(s.orders[id]) <= HeldQty(s, i);
    PrefixIsBooked(s, id, fills, done);
  }

  lemma {:induction false} ReachableIsBehind(s: State, actions: seq<Action>, id: OrderId, fills: seq<Activity>, done: nat)
    requires Initial(s) && NoLateFills(s, actions) && AllWellLabelled(actions)
    requires var e := Run(s, actions);
      && id < |e.orders| && e.orders[id].state.Open() && !e.orders[id].state.PendingSubmission?
      && BookedPrefix(e, id, fills, done) && Executions(fills, e.orders[id].qty)
    ensures Behind(Run(s, actions), id, fills, done)
  {
    hide Run, NoLateFills, AllWellLabelled, BookedPrefix, Executions, LabelsHonest, SellsCovered, FilledExact, OrdersOk,
         WholeCents, Behind, Initial;
    EveryRunLabels(s, actions);
    EveryRunCovered(s, actions);
    EveryRecord(s, actions);
    SoundIsBehind(Run(s, actions), id, fills, done);
  }

  /**
   * Reconciliation converges in every run without late fills: one pass over a fresh terminal
   * snapshot never throws, books each missing execution once, and ends the order as the venue did
   * unless the venue says "filled" and nothing was missing.
   */
  lemma EveryRunConverges(s: State, actions: seq<Action>, id: OrderId, seen: OrderState, v: Snapshot, age: int, done: nat)
    requires Initial(s) && NoLateFills(s, actions) && AllWellLabelled(actions)
    requires var e, fills := Run(s, actions), OrderFills(v.activities, id);
      && id < |e.orders| && e.orders[id].state.Open() && !e.orders[id].state.PendingSubmission?
      && v.order == id && IsOutcome(v.status) && v.filledQty == SumOf(fills, QtyOf)
      && BookedPrefix(e, id, fills, done) && Executions(fills, e.orders[id].qty)
      && (v.status.FilledAtVenue? ==> v.filledQty == e.orders[id].qty)
      && !Seen(e.audit, ReconStatus(id, v.status))
    ensures var e, fills := Run(s, actions), OrderFills(v.activities, id);
      var p := OrderReconciled(e, id, seen, Some(v), age);
      && done <= |fills| && Converged(e, id, v.status, fills, done, p)
      && (Ended(p.db.orders[id], OutcomeState(v.status), v.filledQty) <==> !(v.status.FilledAtVenue? && done == |fills|))
  {
    hide Run, NoLateFills, AllWellLabelled, OrderReconciled, Converged, Behind, BookedPrefix, Executions, Seen, Ended;
    var e, fills := Run(s, actions), OrderFills(v.activities, id);
    ReachableIsBehind(s, actions, id, fills, done);
    BehindInRange(e, id, fills, done);
    PassBooksMissing(e, id, seen, v, age, done);
    ConvergesIff(e, id, seen, v, age, done);
  }

  /**
   * In every run without late fills, two passes can leave an order stuck: the first sees every
   * execution while the status still says "partially filled", the second sees "filled". The order is
   * open with its whole quantity filled, and each further such pass leaves it so.
   */
  lemma {:induction false} EveryRunSticks(s: State, actions: seq<Action>, id: OrderId,
                                          first: OrderState, second: OrderState,
                                          early: Snapshot, later: Snapshot, age: int, laterAge: int, done: nat)
    requires Initial(s) && NoLateFills(s, actions) && AllWellLabelled(actions)
    requires early.order == id == later.order && early.status.PartiallyFilledAtVenue? && later.status.FilledAtVenue?
    requires var e, fills := Run(s, actions), OrderFills(later.activities, id);
      && id < |e.orders| && e.orders[id].state.Open() && !e.orders[id].state.PendingSubmission?
      && OrderFills(early.activities, id) == fills && done < |fills|
      && BookedPrefix(e, id, fills, done) && Executions(fills, e.orders[id].qty)
      && early.filledQty <= SumOf(fills, QtyOf) == later.filledQty == e.orders[id].qty
      && !Seen(e.audit, ReconStatus(id, FilledAtVenue))
    ensures var p := OrderReconciled(Run(s, actions), id, first, Some(early), age);
      && !p.threw && id < |p.db.orders|
      && p.db.orders[id].state.Open() && p.db.orders[id].filledQty == p.db.orders[id].qty
      && OrderReconciled(p.db, id, second, Some(later), laterAge) == Pass(p.db, false)
  {
    var e, fills := Run(s, actions), OrderFills(later.activities, id);
    hide Run, NoLateFills, AllWellLabelled, Replayed, Behind, BookedPrefix, Executions, Seen, OrderFills, SumOf;
    ReachableIsBehind(s, actions, id, fills, done);
    EarlyActivitiesStick(e, id, fills, done, first.CancelPending?, second.CancelPending?);
    assert FillEvents(id, PartiallyFilledAtVenue, fills) + StatusEvents(id, PartiallyFilledAtVenue) ==
           FillEvents(id, PartiallyFilledAtVenue, fills);
  }
}

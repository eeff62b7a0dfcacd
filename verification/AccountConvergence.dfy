/**
 * An account's reconciliation pass converges order by order: replaying one listed order leaves the
 * others alone, so each ends as it would have on its own.
 */
module AccountConvergence {
  import opened Wrappers
  import opened Sums
  import opened MoneyMath
  import opened OrderMachine
  import opened Rows
  import opened Accounting
  import opened Orders
  import opened ExecutionService
  import opened Engine
  import opened Conservation
  import opened OrderRecord
  import opened SellSafety
  import opened Delivery
  import opened Reconciliation
  import opened AccountReconciliation

  // ---- what a stretch of the pass may touch ----

  /** What every state reachable without late fills keeps. */
  ghost predicate Sound(s: State) { Recorded(s) && FilledExact(s) && SellsCovered(s) && LabelsHonest(s) }

  lemma {:induction false} ReachableIsSound(s: State, actions: seq<Action>)
    requires Initial(s) && NoLateFills(s, actions) && AllWellLabelled(actions)
    ensures Sound(Run(s, actions))
  {
    hide Run, Recorded, FilledExact, SellsCovered, LabelsHonest;
    EveryRunLabels(s, actions);
    EveryRunCovered(s, actions);
    EveryRecord(s, actions);
  }

  lemma StaysSound(s: State, a: Action)
    requires Sound(s) && WellLabelled(a) && !LateFill(s, a)
    ensures Sound(Next(s, a))
  {
    hide SellsCovered, LabelsHonest, FilledExact, Next, LateFill, TrailsEnd, FillsJoin, FilledCovered, Inv;
    StepRecorded(s, a);
    StepCovered(s, a);
    LabelsKept(s, a);
  }

  /** Only the orders `ids` moved, only executions of `execs` were booked, only envelopes of `ids` recorded. */
  ghost predicate Touches(s: State, next: State, ids: set<OrderId>, execs: set<ExecId>) {
    && |next.orders| == |s.orders|
    && (forall id: OrderId | id < |s.orders| && id !in ids ::
          next.orders[id] == s.orders[id] && OwnFills(next.fills, id) == OwnFills(s.fills, id))
    && (forall x | Booked(next.fills, x) :: Booked(s.fills, x) || x in execs)
    && (forall id: OrderId, status | Seen(next.audit, ReconStatus(id, status)) ::
      Seen(s.audit, ReconStatus(id, status)) || id in ids)
    && (forall id: OrderId | Seen(next.audit, ReconSubmitFailed(id)) :: Seen(s.audit, ReconSubmitFailed(id)) || id in ids)
  }

  lemma TouchesNothing(s: State, ids: set<OrderId>, execs: set<ExecId>)
    ensures Touches(s, s, ids, execs)
  {
  }

  lemma TouchesBoth(s: State, mid: State, next: State, ids: set<OrderId>, more: set<OrderId>,
                    execs: set<ExecId>, others: set<ExecId>)
    requires Touches(s, mid, ids, execs) && Touches(mid, next, more, others)
    ensures Touches(s, next, ids + more, execs + others)
  {
    hide Booked, Seen, OwnFills;
  }

  /** The envelopes reconciliation makes up for an order. */
  ghost predicate OfOrder(e: Event, id: OrderId) {
    && e.order == id && e.ext.Some?
    && match e.ext.value
       case ReconFill(x) => e.IsFill() && e.execution.Some? && e.execution.value.id == x
       case ReconStatus(o, _) => o == id
       case ReconSubmitFailed(o) => o == id
       case StreamId(_) => false
  }

  function ExecOf(e: Event): set<ExecId> { if e.execution.Some? then {e.execution.value.id} else {} }

  lemma {:induction false} OwnFillsAppend(fills: seq<Fill>, more: seq<Fill>, id: OrderId)
    ensures OwnFills(fills + more, id) == OwnFills(fills, id) + OwnFills(more, id)
  {
    if more == [] {
      assert fills + more == fills;
    } else {
      var n := |more| - 1;
      assert (fills + more)[..|fills| + n] == fills + more[..n];
      OwnFillsAppend(fills, more[..n], id);
    }
  }

  lemma OneFillAppended(fills: seq<Fill>, row: Fill, id: OrderId)
    ensures row.order != id ==> OwnFills(fills + [row], id) == OwnFills(fills, id)
  {
    assert (fills + [row])[..|fills|] == fills;
  }

  /** One delivered event of an order touches that order only. */
  lemma EventTouches(s: State, e: Event, id: OrderId)
    requires OfOrder(e, id)
    ensures Touches(s, Next(s, Deliver(e)), {id}, ExecOf(e))
  {
    hide Advance, Repositioned, Notional, LedgerTail, Effect;
    var t, next := Transitions(s, Deliver(e)), Next(s, Deliver(e));
    StepsInFull(s, Deliver(e));
    DeliversItsOrder(s, e);
    if t.OrderEffect? {
      StepTouches(s, t, next, e, id);
    } else {
      TouchesNothing(s, {id}, ExecOf(e));
    }
  }

  lemma DeliversItsOrder(s: State, e: Event)
    ensures var t := Transitions(s, Deliver(e));
      t.OrderEffect? ==>
        t.id == e.order && t.kind == e.kind && t.ext == e.ext && t.fill == if e.IsFill() then e.execution else None
  {
  }

  lemma StepTouches(s: State, t: OrderEffect, next: State, e: Event, id: OrderId)
    requires t.OrderEffect? && t.id < |s.orders| && OrderStep(s, t, next) && OfOrder(e, id)
    requires t.id == id && t.ext == e.ext && t.fill == if e.IsFill() then e.execution else None
    ensures Touches(s, next, {id}, ExecOf(e))
  {
    hide Advance, Repositioned, Notional, LedgerTail, InferredRows, Booked, Seen, OwnFills;
    var r := Advance(s.orders[id], t.kind, t.fill);
    var steps := if r.Moved? then r.steps else [];
    var rows := [MainRow(s.orders[id], id, t.kind, t.source, t.ext, steps)] + if r.Moved? then InferredRows(id, steps) else [];
    assert next.audit == s.audit + rows;
    OnlyItsEnvelope(s.audit, rows, id, t, steps, r.Moved?);
    if t.fill.Some? {
      var row := FillRow(s.orders[id], id, t.fill.value);
      NewlyBooked(s.fills, row);
      forall other: OrderId | other != id ensures OwnFills(next.fills, other) == OwnFills(s.fills, other) {
        OneFillAppended(s.fills, row, other);
      }
    }
  }

  lemma OnlyItsEnvelope(audit: seq<AuditRow>, rows: seq<AuditRow>, id: OrderId, t: OrderEffect, steps: seq<Step>, moved: bool)
    requires t.OrderEffect? && rows != [] && rows[0].ext == t.ext
    requires rows[1..] == if moved then InferredRows(id, steps) else []
    ensures forall y | Seen(audit + rows, y) :: Seen(audit, y) || t.ext == Some(y)
  {
    InferredUnlabelled(id, steps);
    forall k | 1 <= k < |rows| ensures rows[k].ext.None? { assert rows[k] == rows[1..][k - 1]; }
    forall y | Seen(audit + rows, y) ensures Seen(audit, y) || t.ext == Some(y) {
      var i :| 0 <= i < |audit + rows| && (audit + rows)[i].ext == Some(y);
      assert (audit + rows)[i] == if i < |audit| then audit[i] else rows[i - |audit|];
    }
  }

  // ---- one order's replay ----

  /** A fill finds the order open, so it is not late; a partial one leaves it open. */
  lemma EventOnOpen(s: State, e: Event, id: OrderId)
    requires Sound(s) && OfOrder(e, id) && id < |s.orders| && (e.IsFill() ==> s.orders[id].state.Open())
    ensures var next := Next(s, Deliver(e));
      && Sound(next) && Touches(s, next, {id}, ExecOf(e)) && id < |next.orders|
      && (e.kind.OrderPartiallyFilled? ==> next.orders[id].state.Open())
  {
    hide Sound, Next, Effect, Transitions;
    EventTouches(s, e, id);
    DeliversItsOrder(s, e);
    StaysSound(s, Deliver(e));
    if e.kind.OrderPartiallyFilled? {
      SoundOrders(s);
      PartialStaysOpen(s, e, id);
    }
  }

  lemma SoundOrders(s: State)
    requires Sound(s)
    ensures OrdersOk(s)
  {
  }

  lemma PartialStaysOpen(s: State, e: Event, id: OrderId)
    requires OrdersOk(s) && OfOrder(e, id) && id < |s.orders| && s.orders[id].state.Open() && e.kind.OrderPartiallyFilled?
    ensures id < |Next(s, Deliver(e)).orders| && Next(s, Deliver(e)).orders[id].state.Open()
  {
    hide Advance, Effect, Repositioned, LedgerTail, Notional, MayCome, HasRoom;
    DeliversItsOrder(s, e);
    StepsInFull(s, Deliver(e));
    var t := Transitions(s, Deliver(e));
    if t.OrderEffect? {
      WhoTakesWhat(s.orders[id], t.kind, t.fill);
    }
  }

  /** A fill comes after partial fills only. */
  ghost predicate FillsFirst(events: seq<Event>) {
    forall m, n | 0 <= m < n < |events| && events[n].IsFill() :: events[m].kind.OrderPartiallyFilled?
  }

  lemma FrontPartial(events: seq<Event>)
    requires FillsFirst(events) && events != []
    ensures FillsFirst(events[..|events| - 1])
    ensures events[|events| - 1].IsFill() ==> forall x <- events[..|events| - 1] :: x.kind.OrderPartiallyFilled?
    ensures forall x <- events[..|events| - 1] :: x in events
  {
  }

  /** A step of the replay is a delivery, or nothing. */
  lemma LastReplayed(s: State, cancelling: bool, events: seq<Event>)
    requires events != []
    ensures var before, e := Replayed(s, cancelling, events[..|events| - 1]), events[|events| - 1];
      Replayed(s, cancelling, events).db ==
        if before.threw || (cancelling && PreCancel(e.kind)) then before.db else Next(before.db, Deliver(e))
  {
    hide EventApplied;
  }

  /** Replaying such events of an order that is open, or that none of them fills, touches that order only. */
  lemma {:induction false} ReplayTouches(s: State, cancelling: bool, id: OrderId, events: seq<Event>, execs: set<ExecId>)
    requires Sound(s) && id < |s.orders| && FillsFirst(events)
    requires forall e <- events :: OfOrder(e, id) && ExecOf(e) <= execs && (e.IsFill() ==> s.orders[id].state.Open())
    ensures var p := Replayed(s, cancelling, events);
      && Sound(p.db) && Touches(s, p.db, {id}, execs) && id < |p.db.orders|
      && (s.orders[id].state.Open() && (forall e <- events :: e.kind.OrderPartiallyFilled?) ==> p.db.orders[id].state.Open())
  {
    hide Sound, OfOrder, Touches, Replayed, Next, ExecOf;
    if events == [] {
      NothingReplayed(s, cancelling);
      TouchesNothing(s, {id}, execs);
    } else {
      var front, e := events[..|events| - 1], events[|events| - 1];
      FrontPartial(events);
      ReplayTouches(s, cancelling, id, front, execs);
      LastReplayed(s, cancelling, events);
      var before := Replayed(s, cancelling, front);
      if !before.threw && !(cancelling && PreCancel(e.kind)) {
        EventOnOpen(before.db, e, id);
        TouchesBoth(s, before.db, Next(before.db, Deliver(e)), {id}, {id}, execs, ExecOf(e));
        assert {id} + {id} == {id} && execs + ExecOf(e) == execs;
      }
    }
  }

  // ---- the replay of one listed order ----

  /** The snapshots are each of the order asked about. */
  ghost predicate OwnSnapshots(snapshots: Snapshots) {
    forall id: OrderId :: snapshots(id).Some? ==> snapshots(id).value.order == id
  }

  /** The executions a snapshot brings. */
  function ExecsOf(snapshot: Option<Snapshot>): set<ExecId> {
    if snapshot.None? then {}
    else set a | a in OrderFills(snapshot.value.activities, snapshot.value.order) :: a.exec
  }

  lemma FillEventsFit(id: OrderId, status: VendorStatus, fills: seq<Activity>, execs: set<ExecId>)
    requires forall a <- fills :: a.exec in execs
    ensures var events := FillEvents(id, status, fills) + StatusEvents(id, status);
      FillsFirst(events) && forall e <- events :: OfOrder(e, id) && ExecOf(e) <= execs
  {
    var filling, events := FillEvents(id, status, fills), FillEvents(id, status, fills) + StatusEvents(id, status);
    forall n | 0 <= n < |events| ensures OfOrder(events[n], id) && ExecOf(events[n]) <= execs {
      if n < |fills| {
        assert events[n] == FillEvent(id, fills[n], FillKind(status, n == |fills| - 1)) && fills[n] in fills;
      } else {
        assert events[n] == StatusEvents(id, status)[n - |fills|];
      }
    }
  }

  /** What reconcileAccount does for one listed order touches no other. */
  lemma OrderTouches(s: State, l: Listed, snapshot: Option<Snapshot>, age: int)
    requires Sound(s) && l.id < |s.orders| && s.orders[l.id].state.Open()
    requires snapshot.Some? ==> snapshot.value.order == l.id
    ensures var p := OrderReconciled(s, l.id, l.seen, snapshot, age);
      Sound(p.db) && Touches(s, p.db, {l.id}, ExecsOf(snapshot))
  {
    hide Sound, Touches, Replayed, OrderFills, FillsFirst;
    TouchesNothing(s, {l.id}, ExecsOf(snapshot));
    if snapshot.None? {
      var e := Event(OrderSubmitFailed, l.id, Some(ReconSubmitFailed(l.id)), None);
      OneEventFirst(e);
      ReplayTouches(s, false, l.id, [e], {});
    } else {
      var fills := OrderFills(snapshot.value.activities, l.id);
      FillEventsFit(l.id, snapshot.value.status, fills, ExecsOf(snapshot));
      ReplayTouches(s, l.seen.CancelPending?, l.id,
                    FillEvents(l.id, snapshot.value.status, fills) + StatusEvents(l.id, snapshot.value.status),
                    ExecsOf(snapshot));
    }
  }

  lemma OneEventFirst(e: Event)
    ensures FillsFirst([e])
  {
  }

  // ---- the whole pass ----

  /** The listing is of these orders, open, each once and in its state. */
  ghost predicate AsListed(s: State, listed: seq<Listed>) {
    && (forall k | 0 <= k < |listed| ::
          listed[k].id < |s.orders| && s.orders[listed[k].id].state == listed[k].seen && listed[k].seen.Open())
    && (forall j, k | 0 <= j < k < |listed| :: listed[j].id != listed[k].id)
  }

  function IdsOf(listed: seq<Listed>): set<OrderId> { set l | l in listed :: l.id }

  ghost function AllExecs(listed: seq<Listed>, snapshots: Snapshots): set<ExecId> {
    set l, x | l in listed && x in ExecsOf(snapshots(l.id)) :: x
  }

  lemma ListedFront(s: State, listed: seq<Listed>, snapshots: Snapshots)
    requires AsListed(s, listed) && listed != []
    ensures var front, last := listed[..|listed| - 1], listed[|listed| - 1];
      && AsListed(s, front) && last.id !in IdsOf(front)
      && IdsOf(listed) == IdsOf(front) + {last.id}
      && AllExecs(listed, snapshots) == AllExecs(front, snapshots) + ExecsOf(snapshots(last.id))
  {
    hide ExecsOf;
    assert listed == listed[..|listed| - 1] + [listed[|listed| - 1]];
  }

  /** A pass touches the orders it lists and no other. */
  lemma {:induction false} PassTouches(s: State, listed: seq<Listed>, snapshots: Snapshots, ages: Ages)
    requires Sound(s) && AsListed(s, listed) && OwnSnapshots(snapshots)
    ensures var p := AccountReconciled(s, listed, snapshots, ages);
      Sound(p.db) && Touches(s, p.db, IdsOf(listed), AllExecs(listed, snapshots))
  {
    hide Sound, IdsOf, AllExecs, ExecsOf, OrderReconciled, Booked, Seen, OwnFills;
    if listed == [] {
      TouchesNothing(s, IdsOf(listed), AllExecs(listed, snapshots));
    } else {
      var front, last := listed[..|listed| - 1], listed[|listed| - 1];
      ListedFront(s, listed, snapshots);
      PassTouches(s, front, snapshots, ages);
      var before := AccountReconciled(s, front, snapshots, ages);
      if before.threw {
        TouchesNothing(before.db, {last.id}, ExecsOf(snapshots(last.id)));
      } else {
        OrderTouches(before.db, last, snapshots(last.id), ages(last.id));
      }
      TouchesBoth(s, before.db, AccountReconciled(s, listed, snapshots, ages).db,
                  IdsOf(front), {last.id}, AllExecs(front, snapshots), ExecsOf(snapshots(last.id)));
    }
  }

  /** A pass is its first part and then, unless that threw, the rest. */
  lemma {:induction false} PassSplit(s: State, first: seq<Listed>, rest: seq<Listed>, snapshots: Snapshots, ages: Ages)
    requires !AccountReconciled(s, first, snapshots, ages).threw
    ensures AccountReconciled(s, first + rest, snapshots, ages) ==
            AccountReconciled(AccountReconciled(s, first, snapshots, ages).db, rest, snapshots, ages)
  {
    hide OrderReconciled;
    if rest == [] {
      assert first + rest == first;
    } else {
      var n := |rest| - 1;
      assert (first + rest)[..|first| + n] == first + rest[..n];
      PassSplit(s, first, rest[..n], snapshots, ages);
    }
  }

  lemma UpTo(s: State, listed: seq<Listed>, k: nat)
    requires k < |listed| && AsListed(s, listed)
    ensures AsListed(s, listed[..k]) && AsListed(s, listed[..k + 1])
  {
  }

  lemma TouchesKeepsCount(s: State, next: State, ids: set<OrderId>, execs: set<ExecId>)
    requires Touches(s, next, ids, execs)
    ensures |next.orders| == |s.orders|
  {
  }

  /** Around one listed order's turn: nothing threw before it, and its rows are as they were listed. */
  lemma ItsTurn(s: State, listed: seq<Listed>, snapshots: Snapshots, ages: Ages, k: nat)
    returns (before: State, after: State)
    requires Sound(s) && AsListed(s, listed) && OwnSnapshots(snapshots) && k < |listed|
    requires !AccountReconciled(s, listed, snapshots, ages).threw
    ensures var l, end := listed[k], AccountReconciled(s, listed, snapshots, ages).db;
      && OrderReconciled(before, l.id, l.seen, snapshots(l.id), ages(l.id)) == Pass(after, false)
      && AccountReconciled(s, listed[..k + 1], snapshots, ages) == Pass(after, false)
      && Sound(before) && Sound(after) && Sound(end) && |after.orders| == |s.orders|
      && Touches(s, before, IdsOf(listed[..k]), AllExecs(listed[..k], snapshots)) && l.id !in IdsOf(listed[..k])
      && Touches(after, end, IdsOf(listed[k + 1..]), AllExecs(listed[k + 1..], snapshots)) && l.id !in IdsOf(listed[k + 1..])
  {
    hide Sound, AccountReconciled, OrderReconciled, Touches, AllExecs, IdsOf, AsListed;
    var first, upTo, rest := listed[..k], listed[..k + 1], listed[k + 1..];
    assert upTo + rest == listed;
    UpTo(s, listed, k);
    OneTurn(s, listed, snapshots, ages, ages, k);
    if AccountReconciled(s, upTo, snapshots, ages).threw { ThrownStays(s, listed, snapshots, ages, k + 1); }
    before, after := AccountReconciled(s, first, snapshots, ages).db, AccountReconciled(s, upTo, snapshots, ages).db;
    PassTouches(s, first, snapshots, ages);
    PassTouches(s, upTo, snapshots, ages);
    TouchesKeepsCount(s, after, IdsOf(upTo), AllExecs(upTo, snapshots));
    PassSplit(s, upTo, rest, snapshots, ages);
    RestAsListed(s, after, listed, snapshots, k);
    PassTouches(after, rest, snapshots, ages);
  }

  lemma RestAsListed(s: State, after: State, listed: seq<Listed>, snapshots: Snapshots, k: nat)
    requires AsListed(s, listed) && k < |listed|
    requires Touches(s, after, IdsOf(listed[..k + 1]), AllExecs(listed[..k + 1], snapshots))
    ensures AsListed(after, listed[k + 1..])
    ensures listed[k].id !in IdsOf(listed[..k]) && listed[k].id !in IdsOf(listed[k + 1..])
  {
    hide AllExecs, Booked, Seen, OwnFills;
    forall n | k + 1 <= n < |listed| ensures listed[n].id !in IdsOf(listed[..k + 1]) {}
  }

  // ---- each listed order on its turn ----

  /** The status of a snapshot books nothing. */
  lemma StatusBooksNothing(s: State, cancelling: bool, events: seq<Event>, id: OrderId, status: VendorStatus)
    ensures Replayed(s, cancelling, events + StatusEvents(id, status)).db.fills == Replayed(s, cancelling, events).db.fills
  {
    hide EventApplied, Replayed, Effect;
    if StatusEvent(status).None? {
      assert events + StatusEvents(id, status) == events;
    } else {
      var e := StatusEvents(id, status)[0];
      assert (events + [e])[..|events|] == events;
      LastReplayed(s, cancelling, events + [e]);
      StepsInFull(Replayed(s, cancelling, events).db, Deliver(e));
      DeliversItsOrder(Replayed(s, cancelling, events).db, e);
    }
  }

  /** Whatever the venue's status, an order's turn books what is missing of it, each execution once. */
  lemma TurnBooksMissing(s: State, id: OrderId, seen: OrderState, v: Snapshot, age: int, done: nat)
    requires v.order == id && Behind(s, id, OrderFills(v.activities, id), done)
    requires v.status.FilledAtVenue? ==> SumOf(OrderFills(v.activities, id), QtyOf) == s.orders[id].qty
    ensures id < |s.orders| && done <= |OrderFills(v.activities, id)|
    ensures var p := OrderReconciled(s, id, seen, Some(v), age);
      !p.threw ==> p.db.fills == s.fills + Bookings(s.orders[id], id, OrderFills(v.activities, id)[done..])
  {
    hide Replayed, Behind, OrderFills, Bookings, Ended, Seen;
    var fills := OrderFills(v.activities, id);
    var events := FillEvents(id, v.status, fills);
    BehindInRange(s, id, fills, done);
    FillsOfPass(s, id, seen.CancelPending?, v.status, fills, done, |fills|);
    assert events[..|fills|] == events && fills[done..|fills|] == fills[done..];
    NoBookings(s.orders[id], id, fills[|fills|..]);
    StatusBooksNothing(s, seen.CancelPending?, events, id, v.status);
  }

  /** A listed order the venue knows: past submission, its books a prefix of the venue's executions. */
  ghost predicate Known(s: State, id: OrderId, v: Snapshot, done: nat) {
    && id < |s.orders| && s.orders[id].state.Open() && !s.orders[id].state.PendingSubmission? && v.order == id
    && v.filledQty == SumOf(OrderFills(v.activities, id), QtyOf)
    && (v.status.FilledAtVenue? ==> v.filledQty == s.orders[id].qty)
    && BookedPrefix(s, id, OrderFills(v.activities, id), done)
    && Executions(OrderFills(v.activities, id), s.orders[id].qty)
  }

  /** The venue names no execution of this order as another's. */
  ghost predicate Apart(listed: seq<Listed>, snapshots: Snapshots, id: OrderId) {
    forall l <- listed | l.id != id :: ExecsOf(snapshots(l.id)) !! ExecsOf(snapshots(id))
  }

  /** What other orders' turns touch leaves the order as well known as it was. */
  lemma StaysKnown(s: State, before: State, listed: seq<Listed>, snapshots: Snapshots, k: nat, id: OrderId,
                   v: Snapshot, done: nat)
    requires k <= |listed| && Known(s, id, v, done) && Apart(listed, snapshots, id) && snapshots(id) == Some(v)
    requires id !in IdsOf(listed[..k]) && Touches(s, before, IdsOf(listed[..k]), AllExecs(listed[..k], snapshots))
    ensures Known(before, id, v, done) && before.orders[id] == s.orders[id]
    ensures OwnFills(before.fills, id) == OwnFills(s.fills, id)
    ensures forall status :: Seen(before.audit, ReconStatus(id, status)) ==> Seen(s.audit, ReconStatus(id, status))
  {
    hide OrderFills, SumOf, Executions, Booked, Seen, OwnFills;
    var fills := OrderFills(v.activities, id);
    forall n | done <= n < |fills| ensures !Booked(before.fills, fills[n].exec) {
      assert fills[n] in fills && fills[n].exec in ExecsOf(snapshots(id));
      OthersExecs(listed, snapshots, k, id, fills[n].exec);
    }
  }

  lemma OthersExecs(listed: seq<Listed>, snapshots: Snapshots, k: nat, id: OrderId, x: ExecId)
    requires k <= |listed| && Apart(listed, snapshots, id) && id !in IdsOf(listed[..k]) && x in ExecsOf(snapshots(id))
    ensures x !in AllExecs(listed[..k], snapshots)
  {
    hide ExecsOf;
    forall l | l in listed[..k] ensures x !in ExecsOf(snapshots(l.id)) {
      assert l.id in IdsOf(listed[..k]) && l in listed;
    }
  }

  lemma {:induction false} BookingsAreOwn(o: Order, id: OrderId, fills: seq<Activity>)
    ensures OwnFills(Bookings(o, id, fills), id) == Bookings(o, id, fills)
  {
    if fills != [] {
      var n := |fills| - 1;
      BookingsAreOwn(o, id, fills[..n]);
      assert Bookings(o, id, fills)[..n] == Bookings(o, id, fills[..n]);
    }
  }

  /** Once the missing executions are booked, the books hold all of the venue's. */
  lemma AllBookedOnce(s: State, end: State, id: OrderId, fills: seq<Activity>, done: nat)
    requires id < |s.orders| && BookedPrefix(s, id, fills, done)
    requires OwnFills(end.fills, id) == OwnFills(s.fills, id) + Bookings(s.orders[id], id, fills[done..])
    ensures BookedPrefix(end, id, fills, |fills|)
  {
    hide OwnFills, Booked;
  }

  /** How a listed order ends: as the venue ended it, or stuck where it was. */
  ghost predicate EndsAsAtVenue(o: Order, end: Order, v: Snapshot, done: nat)
    requires IsOutcome(v.status)
  {
    if v.status.FilledAtVenue? && done == |OrderFills(v.activities, v.order)| then end == o
    else Ended(end, OutcomeState(v.status), v.filledQty)
  }

  /**
   * Every listed order converges within the account's pass: if the pass does not throw, each order
   * the venue knows has all its executions booked, each once, and ends as the venue ended it, unless
   * the venue says "filled" and nothing was missing.
   */
  lemma ListedConverges(s: State, listed: seq<Listed>, snapshots: Snapshots, ages: Ages, k: nat, v: Snapshot, done: nat)
    requires Sound(s) && AsListed(s, listed) && OwnSnapshots(snapshots) && k < |listed|
    requires snapshots(listed[k].id) == Some(v) && Known(s, listed[k].id, v, done) && Apart(listed, snapshots, listed[k].id)
    requires !AccountReconciled(s, listed, snapshots, ages).threw
    ensures done <= |OrderFills(v.activities, listed[k].id)|
    ensures var id, fills, end := listed[k].id, OrderFills(v.activities, listed[k].id),
      AccountReconciled(s, listed, snapshots, ages).db;
      && |end.orders| == |s.orders|
      && OwnFills(end.fills, id) == OwnFills(s.fills, id) + Bookings(s.orders[id], id, fills[done..])
      && BookedPrefix(end, id, fills, |fills|)
      && (IsOutcome(v.status) && !Seen(s.audit, ReconStatus(id, v.status)) ==>
        EndsAsAtVenue(s.orders[id], end.orders[id], v, done))
  {
    hide Sound, OrderReconciled, AccountReconciled, Known, Bookings, OrderFills, Apart, AllExecs, IdsOf,
        BookedPrefix, OwnFills, Seen, Ended, Booked;
    var l := listed[k];
    var id, fills, end := l.id, OrderFills(v.activities, l.id), AccountReconciled(s, listed, snapshots, ages).db;
    var before, after := ItsTurn(s, listed, snapshots, ages, k);
    StaysKnown(s, before, listed, snapshots, k, id, v, done);
    KnownInRange(s, id, v, done);
    TurnConverges(before, l, v, ages(id), done);
    OwnFillsAppend(before.fills, Bookings(before.orders[id], id, fills[done..]), id);
    BookingsAreOwn(before.orders[id], id, fills[done..]);
    AllBookedOnce(s, end, id, fills, done);
  }

  lemma KnownInRange(s: State, id: OrderId, v: Snapshot, done: nat)
    requires Known(s, id, v, done)
    ensures id < |s.orders| && v.order == id && done <= |OrderFills(v.activities, id)|
    ensures BookedPrefix(s, id, OrderFills(v.activities, id), done)
  {
  }

  /** The turn itself. */
  lemma TurnConverges(s: State, l: Listed, v: Snapshot, age: int, done: nat)
    requires Sound(s) && Known(s, l.id, v, done)
    requires !OrderReconciled(s, l.id, l.seen, Some(v), age).threw
    ensures done <= |OrderFills(v.activities, l.id)|
    ensures var p := OrderReconciled(s, l.id, l.seen, Some(v), age);
      && p.db.fills == s.fills + Bookings(s.orders[l.id], l.id, OrderFills(v.activities, l.id)[done..])
      && (IsOutcome(v.status) && !Seen(s.audit, ReconStatus(l.id, v.status)) ==>
           l.id < |p.db.orders| && EndsAsAtVenue(s.orders[l.id], p.db.orders[l.id], v, done))
  {
    hide OrderReconciled, Bookings, OrderFills, BookedPrefix, Seen, Ended, Executions, Recorded, FilledExact,
         SellsCovered, LabelsHonest, Behind, SumOf;
    KnownIsBehind(s, l.id, v, done);
    TurnBooksMissing(s, l.id, l.seen, v, age, done);
    if IsOutcome(v.status) && !Seen(s.audit, ReconStatus(l.id, v.status)) {
      PassBooksMissing(s, l.id, l.seen, v, age, done);
    }
  }

  lemma KnownIsBehind(s: State, id: OrderId, v: Snapshot, done: nat)
    requires Sound(s) && Known(s, id, v, done)
    ensures Behind(s, id, OrderFills(v.activities, id), done)
  {
    hide OrderFills, BookedPrefix, Executions, FilledExact, SellsCovered, LabelsHonest, TrailsEnd, FillsJoin,
        FilledCovered, Behind;
    SoundIsBehind(s, id, OrderFills(v.activities, id), done);
  }

  // ---- from every reachable state ----

  ghost predicate Descends(listed: seq<Listed>) { forall j, k | 0 <= j < k < |listed| :: listed[k].id < listed[j].id }

  lemma DescendsFrom(first: Listed, rest: seq<Listed>)
    requires Descends(rest) && forall l <- rest :: l.id < first.id
    ensures Descends([first] + rest)
  {
    forall k | 0 <= k < |rest| ensures rest[k].id < first.id { assert rest[k] in rest; }
  }

  /** The listing runs from the newest order down. */
  lemma {:induction false} OpenOrdersDescend(orders: seq<Order>, limit: nat)
    ensures Descends(OpenOrders(orders, limit))
  {
    hide SumOf, Descends;
    if orders == [] || limit == 0 {
      NothingDescends();
    } else {
      var n := |orders| - 1;
      if orders[n].state.Open() {
        OpenOrdersDescend(orders[..n], limit - 1);
        DescendsFrom(Listed(n, orders[n].state), OpenOrders(orders[..n], limit - 1));
      } else {
        OpenOrdersDescend(orders[..n], limit);
      }
    }
  }

  lemma NothingDescends()
    ensures Descends([])
  {
  }

  lemma ListingIsAsListed(s: State, limit: nat)
    ensures AsListed(s, OpenOrders(s.orders, limit))
  {
    hide OpenOrders;
    var listed := OpenOrders(s.orders, limit);
    OpenOrdersDescend(s.orders, limit);
    forall k | 0 <= k < |listed|
      ensures listed[k].id < |s.orders| && s.orders[listed[k].id].state == listed[k].seen && listed[k].seen.Open()
    {
      assert listed[k] in listed;
    }
  }

  /**
   * Reconciliation converges for the account: from every state reachable without late fills, a pass
   * over the hundred newest open orders that does not throw converges for each order it lists.
   */
  lemma {:induction false} EveryPassConverges(s: State, actions: seq<Action>, snapshots: Snapshots, ages: Ages,
                                              id: OrderId, v: Snapshot, done: nat)
    requires Initial(s) && NoLateFills(s, actions) && AllWellLabelled(actions) && OwnSnapshots(snapshots)
    requires var e := Run(s, actions); var listed := OpenOrders(e.orders, 100);
      && snapshots(id) == Some(v) && Known(e, id, v, done) && Apart(listed, snapshots, id)
      && Listed(id, e.orders[id].state) in listed
      && !AccountReconciled(e, listed, snapshots, ages).threw
    ensures done <= |OrderFills(v.activities, id)|
    ensures var e, fills := Run(s, actions), OrderFills(v.activities, id);
      var end := AccountReconciled(e, OpenOrders(e.orders, 100), snapshots, ages).db;
      && |end.orders| == |e.orders|
      && OwnFills(end.fills, id) == OwnFills(e.fills, id) + Bookings(e.orders[id], id, fills[done..])
      && BookedPrefix(end, id, fills, |fills|)
      && (IsOutcome(v.status) && !Seen(e.audit, ReconStatus(id, v.status)) ==>
        EndsAsAtVenue(e.orders[id], end.orders[id], v, done))
  {
    hide Run, NoLateFills, AllWellLabelled, Known, Apart, AccountReconciled, OrderFills, OwnFills, BookedPrefix,
        Seen, Sound, OpenOrders;
    var e := Run(s, actions);
    var listed := OpenOrders(e.orders, 100);
    ReachableIsSound(s, actions);
    ListingIsAsListed(e, 100);
    KnownInRange(e, id, v, done);
    var k :| 0 <= k < |listed| && listed[k] == Listed(id, e.orders[id].state);
    ListedConverges(e, listed, snapshots, ages, k, v, done);
  }

  /** And every order the pass does not list is left as it was. */
  lemma {:induction false} OthersLeftAlone(s: State, actions: seq<Action>, snapshots: Snapshots, ages: Ages, id: OrderId)
    requires Initial(s) && NoLateFills(s, actions) && AllWellLabelled(actions) && OwnSnapshots(snapshots)
    requires id < |Run(s, actions).orders|
    requires Listed(id, Run(s, actions).orders[id].state) !in OpenOrders(Run(s, actions).orders, 100)
    ensures var e := Run(s, actions); var end := AccountReconciled(e, OpenOrders(e.orders, 100), snapshots, ages).db;
      |end.orders| == |e.orders| && end.orders[id] == e.orders[id] && OwnFills(end.fills, id) == OwnFills(e.fills, id)
  {
    hide Run, NoLateFills, AllWellLabelled, AccountReconciled, OwnFills, Sound, OpenOrders, Booked, Seen;
    var e := Run(s, actions);
    var listed := OpenOrders(e.orders, 100);
    ReachableIsSound(s, actions);
    ListingIsAsListed(e, 100);
    PassTouches(e, listed, snapshots, ages);
    if l :| l in listed && l.id == id { assert l == Listed(id, e.orders[id].state); }
  }

  // ---- orders the venue does not know, and cancels it has not seen ----

  /**
   * An order the venue has no record of is given up exactly if it was still PENDING_SUBMISSION and
   * older than a minute; any other is left as it was.
   */
  lemma ListedUnknown(s: State, listed: seq<Listed>, snapshots: Snapshots, ages: Ages, k: nat)
    requires Sound(s) && AsListed(s, listed) && OwnSnapshots(snapshots) && k < |listed|
    requires snapshots(listed[k].id).None? && !Seen(s.audit, ReconSubmitFailed(listed[k].id))
    requires !AccountReconciled(s, listed, snapshots, ages).threw
    ensures var l, end := listed[k], AccountReconciled(s, listed, snapshots, ages).db;
      && l.id < |s.orders| == |end.orders| && OwnFills(end.fills, l.id) == OwnFills(s.fills, l.id)
      && end.orders[l.id] ==
           if l.seen.PendingSubmission? && 60000 < ages(l.id) then s.orders[l.id].(state := SubmitFailed, reservedCash := 0)
           else s.orders[l.id]
  {
    hide Sound, OrderReconciled, AccountReconciled, AllExecs, IdsOf, OwnFills, Seen, Booked;
    var l := listed[k];
    var before, after := ItsTurn(s, listed, snapshots, ages, k);
    UnknownTurn(before, l, ages(l.id));
  }

  lemma UnknownTurn(s: State, l: Listed, age: int)
    requires Sound(s) && l.id < |s.orders| && s.orders[l.id].state == l.seen && !Seen(s.audit, ReconSubmitFailed(l.id))
    ensures var p := OrderReconciled(s, l.id, l.seen, None, age);
      && p.db.fills == s.fills
      && p.db.orders == if l.seen.PendingSubmission? && 60000 < age
                        then s.orders[l.id := s.orders[l.id].(state := SubmitFailed, reservedCash := 0)] else s.orders
  {
    hide Recorded, FilledExact, SellsCovered, LabelsHonest, Seen, Advance, EventApplied, Next, Effect;
    if l.seen.PendingSubmission? && PENDING_GRACE_MS < age {
      var e := Event(OrderSubmitFailed, l.id, Some(ReconSubmitFailed(l.id)), None);
      SoundOrders(s);
      SubmitFails(s, e);
      NothingReplayed(s, false);
      ReplayStep(s, false, [], e, Next(s, Deliver(e)));
      assert [] + [e] == [e];
    }
  }

  lemma SubmitFails(s: State, e: Event)
    requires OrdersOk(s) && e.order < |s.orders| && s.orders[e.order].state.PendingSubmission?
    requires e.kind.OrderSubmitFailed? && e.ext.Some? && !Seen(s.audit, e.ext.value)
    ensures EventApplied(s, e) == Commit(Next(s, Deliver(e)))
    ensures var next := Next(s, Deliver(e));
      next.fills == s.fills && next.orders == s.orders[e.order := s.orders[e.order].(state := SubmitFailed, reservedCash := 0)]
  {
    hide Seen, InferredRows, MainRow;
    AdvanceGivenUp(s.orders[e.order]);
    PlanTakes(PendingSubmission, OrderSubmitFailed);
  }

  // ---- the cancels sent again ----

  /** Seen CANCEL_PENDING, known to the venue, unchanged for over a minute, and CANCEL_PENDING still. */
  function StillCancelling(end: State, snapshots: Snapshots, still: Ages): Listed -> bool {
    (l: Listed) => l.seen.CancelPending? && snapshots(l.id).Some? && 60000 < still(l.id)
                   && l.id < |end.orders| && end.orders[l.id].state.CancelPending?
  }

  /** A pass that does not throw sends again one cancel for each order it leaves waiting for one too long. */
  lemma {:induction false} CancelsSentAgain(s: State, listed: seq<Listed>, snapshots: Snapshots, ages: Ages, still: Ages)
    requires Sound(s) && AsListed(s, listed) && OwnSnapshots(snapshots)
    requires !AccountReconciled(s, listed, snapshots, ages).threw
    ensures Resends(s, listed, snapshots, ages, still)
         == |Where(listed, StillCancelling(AccountReconciled(s, listed, snapshots, ages).db, snapshots, still))|
  {
    hide Sound, AccountReconciled, AsListed;
    assert listed[..|listed|] == listed;
    CancelsSentUpTo(s, listed, snapshots, ages, still, |listed|);
  }

  lemma {:induction false} CancelsSentUpTo(s: State, listed: seq<Listed>, snapshots: Snapshots, ages: Ages, still: Ages, n: nat)
    requires Sound(s) && AsListed(s, listed) && OwnSnapshots(snapshots) && n <= |listed|
    requires !AccountReconciled(s, listed, snapshots, ages).threw
    ensures Resends(s, listed[..n], snapshots, ages, still)
         == |Where(listed[..n], StillCancelling(AccountReconciled(s, listed, snapshots, ages).db, snapshots, still))|
  {
    hide Sound, AccountReconciled, OrderReconciled, AsListed, AllExecs, IdsOf, OwnFills, Seen, Booked;
    if n == 0 {
      NothingListed(s, snapshots, ages, still);
    } else {
      CancelsSentUpTo(s, listed, snapshots, ages, still, n - 1);
      var before, after := ItsTurn(s, listed, snapshots, ages, n - 1);
      OneTurn(s, listed, snapshots, ages, still, n - 1);
      assert listed[..n][..n - 1] == listed[..n - 1] && listed[..n][n - 1] == listed[n - 1];
      InRange(s, listed, n - 1);
    }
  }

  lemma InRange(s: State, listed: seq<Listed>, k: nat)
    requires AsListed(s, listed) && k < |listed|
    ensures listed[k].id < |s.orders|
  {
  }
}

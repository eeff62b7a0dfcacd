/** What every order record, its audit trail and its fills keep over all runs. */
module OrderRecord {
  import opened Wrappers
  import opened Sums
  import opened MoneyMath
  import opened OrderMachine
  import opened Rows
  import opened Accounting
  import opened Orders
  import opened ExecutionService
  import opened Transfers
  import opened Engine
  import opened Conservation

  /**
   * The state an audit trail ends in when its own (not inferred) rows with a target chain from
   * PENDING_SUBMISSION along legal edges; None when they do not.
   */
  function Trail(audit: seq<AuditRow>, id: OrderId): Option<OrderState> {
    if audit == [] then Some(PendingSubmission)
    else
      var row := audit[|audit| - 1];
      match Trail(audit[..|audit| - 1], id)
      case None => None
      case Some(at) =>
        if row.order != id || row.source.Inferred? || row.to.None? then Some(at)
        else if row.from == at && row.to.value in Legal(at) then Some(row.to.value)
        else None
  }

  lemma TrailAppend(audit: seq<AuditRow>, row: AuditRow, id: OrderId)
    ensures Trail(audit + [row], id) ==
      match Trail(audit, id)
      case None => None
      case Some(at) =>
        if row.order != id || row.source.Inferred? || row.to.None? then Some(at)
        else if row.from == at && row.to.value in Legal(at) then Some(row.to.value)
        else None
  {
  }

  lemma {:induction false} InferredRowsAreSilent(audit: seq<AuditRow>, owner: OrderId, steps: seq<Step>, id: OrderId)
    ensures Trail(audit + InferredRows(owner, steps), id) == Trail(audit, id)
  {
    if steps == [] {
      assert audit + InferredRows(owner, steps) == audit;
    } else {
      var n, last := |steps| - 1, steps[|steps| - 1];
      InferredRowsAreSilent(audit, owner, steps[..n], id);
      if last.inferred {
        var row := AuditRow(owner, OrderAccepted, last.from, Some(last.to), Inferred, None);
        assert audit + InferredRows(owner, steps) == audit + InferredRows(owner, steps[..n]) + [row];
        TrailAppend(audit + InferredRows(owner, steps[..n]), row, id);
      } else {
        assert InferredRows(owner, steps) == InferredRows(owner, steps[..n]);
      }
    }
  }

  /** Shares of booked executions of an order. */
  function FilledBy(id: OrderId): Fill -> int {
    (f: Fill) => if f.order == id then f.qty else 0
  }

  ghost predicate TrailsEnd(s: State) {
    && (forall i | 0 <= i < |s.orders| :: Trail(s.audit, i) == Some(s.orders[i].state))
    && (forall i: OrderId | |s.orders| <= i :: Trail(s.audit, i) == Some(PendingSubmission))
  }

  /** Every fills row names an order and agrees with it. */
  ghost predicate FillsJoin(s: State) {
    forall k | 0 <= k < |s.fills| ::
      && s.fills[k].order < |s.orders|
      && s.fills[k].side == s.orders[s.fills[k].order].side
      && s.fills[k].instrument == s.orders[s.fills[k].order].instrument
  }

  ghost predicate FilledCovered(s: State) {
    forall i | 0 <= i < |s.orders| :: s.orders[i].filledQty <= SumOf(s.fills, FilledBy(i))
  }

  ghost predicate FilledExact(s: State) {
    forall i | 0 <= i < |s.orders| :: s.orders[i].filledQty == SumOf(s.fills, FilledBy(i))
  }

  ghost predicate Recorded(s: State) {
    Inv(s) && TrailsEnd(s) && FillsJoin(s) && FilledCovered(s)
  }

  lemma {:induction false} NothingFilledYet(fills: seq<Fill>, id: OrderId)
    requires forall k | 0 <= k < |fills| :: fills[k].order != id
    ensures SumOf(fills, FilledBy(id)) == 0
  {
    if fills != [] { NothingFilledYet(fills[..|fills| - 1], id); }
  }

  lemma PlaceRecorded(s: State, row: Order, next: State)
    requires Recorded(s) && next == s.(orders := s.orders + [row]) && row.filledQty == 0 && row.state.PendingSubmission?
    ensures TrailsEnd(next) && FillsJoin(next) && FilledCovered(next) && (FilledExact(s) ==> FilledExact(next))
  {
    NothingFilledYet(s.fills, |s.orders|);
    hide Trail, SumOf, Inv;
  }

  lemma UntouchedRecorded(s: State, next: State)
    requires Recorded(s) && next.orders == s.orders && next.audit == s.audit && next.fills == s.fills
    ensures TrailsEnd(next) && FillsJoin(next) && FilledCovered(next) && (FilledExact(s) ==> FilledExact(next))
  {
  }

  /** A main row moves its own order's trail to where the order is now. */
  lemma RowMovesTrail(s: State, row: AuditRow, orders: seq<Order>)
    requires TrailsEnd(s) && row.order < |s.orders| == |orders| && !row.source.Inferred?
    requires row.from == s.orders[row.order].state && orders == s.orders[row.order := orders[row.order]]
    requires if row.to.None? then orders[row.order].state == row.from
             else row.to.value in Legal(row.from) && orders[row.order].state == row.to.value
    ensures forall i: OrderId :: Trail(s.audit + [row], i) == Some(if i < |orders| then orders[i].state else PendingSubmission)
  {
    hide Trail, Legal;
    forall i: OrderId ensures Trail(s.audit + [row], i) == Some(if i < |orders| then orders[i].state else PendingSubmission) {
      TrailAppend(s.audit, row, i);
    }
  }

  /** The main row of an order step, and the inferred rows after it. */
  lemma RowOfStep(s: State, t: OrderEffect, next: State) returns (row: AuditRow, steps: seq<Step>)
    requires OrdersOk(s) && t.OrderEffect? && t.id < |s.orders| && OrderStep(s, t, next) && !t.source.Inferred?
    ensures next.audit == s.audit + [row] + InferredRows(t.id, steps)
    ensures row.order == t.id && !row.source.Inferred? && row.from == s.orders[t.id].state
    ensures |next.orders| == |s.orders| && next.orders == s.orders[t.id := next.orders[t.id]]
    ensures if row.to.None? then next.orders[t.id].state == row.from
            else row.to.value in Legal(row.from) && next.orders[t.id].state == row.to.value
  {
    var o := s.orders[t.id];
    AdvanceKeepsOrder(o, t.kind, t.fill);
    if !t.kind.UnknownVendorStatus? { PlanIsLegal(o.state, t.kind); }
    hide Repositioned, Notional, LedgerTail, Plan, Booked, Seen, Legal;
    steps := match Advance(o, t.kind, t.fill) case Moved(steps, _) => steps case _ => [];
    row := MainRow(o, t.id, t.kind, t.source, t.ext, steps);
  }

  lemma OrderStepTrails(s: State, t: OrderEffect, next: State)
    requires TrailsEnd(s) && OrdersOk(s) && t.OrderEffect? && t.id < |s.orders| && OrderStep(s, t, next)
    requires !t.source.Inferred?
    ensures TrailsEnd(next)
  {
    var row, steps := RowOfStep(s, t, next);
    hide OrderStep, OrdersOk, InferredRows, Trail, Legal;
    RowMovesTrail(s, row, next.orders);
    forall i: OrderId ensures Trail(next.audit, i) == Trail(s.audit + [row], i) {
      InferredRowsAreSilent(s.audit + [row], t.id, steps, i);
    }
  }

  lemma OrderStepFilled(s: State, t: OrderEffect, next: State)
    requires Recorded(s) && t.OrderEffect? && t.id < |s.orders| && OrderStep(s, t, next)
    ensures FillsJoin(next) && FilledCovered(next)
    ensures FilledExact(s) && (t.fill.Some? ==> s.orders[t.id].state.Open()) ==> FilledExact(next)
  {
    hide TrailsEnd, LedgerBalanced, WholeCents, FillsTallied, CashExplained, OneEntryEach, TransfersOk, SumOf,
         Repositioned, LedgerTail, Notional, InferredRows;
    var o := s.orders[t.id];
    AdvanceKeepsOrder(o, t.kind, t.fill);
    if t.fill.Some? {
      forall i: OrderId
        ensures SumOf(next.fills, FilledBy(i)) == SumOf(s.fills, FilledBy(i)) + if i == t.id then t.fill.value.qty else 0
      {
        SumAppend(s.fills, FillRow(o, t.id, t.fill.value), FilledBy(i));
      }
    }
  }

  /** (H-term) fails at a step that delivers a new execution to a terminal order. */
  ghost predicate LateFill(s: State, a: Action) {
    var t := Transitions(s, a);
    t.OrderEffect? && t.fill.Some? && t.id < |s.orders| && s.orders[t.id].state.Terminal()
  }

  /** (H-term) is exactly what keeps filled quantities equal to what was booked, step by step. */
  lemma ExactIffNotLate(s: State, a: Action)
    requires Recorded(s) && FilledExact(s)
    ensures FilledExact(Next(s, a)) <==> !LateFill(s, a)
  {
    StepRecorded(s, a);
    if LateFill(s, a) { LateFillUncounted(s, Transitions(s, a), Next(s, a), a); }
  }

  lemma LateFillUncounted(s: State, t: OrderEffect, next: State, a: Action)
    requires Recorded(s) && LateFill(s, a) && t == Transitions(s, a) && next == Next(s, a)
    ensures t.id < |next.orders| && next.orders[t.id].filledQty == s.orders[t.id].filledQty
    ensures SumOf(next.fills, FilledBy(t.id)) > SumOf(s.fills, FilledBy(t.id))
  {
    StepsInFull(s, a);
    hide EventApplied, CancelRequested, SubmissionGivenUp, Repositioned, SumOf, Notional;
    OrderTerminalAbsorbs(s, a, t.id);
    SumAppend(s.fills, FillRow(s.orders[t.id], t.id, t.fill.value), FilledBy(t.id));
  }

  /** No execution arrives for an order that is already terminal, all along the run. */
  ghost predicate NoLateFills(s: State, actions: seq<Action>) {
    forall k | 0 <= k < |actions| :: !LateFill(Run(s, actions[..k]), actions[k])
  }

  lemma NoLateFillsPrefix(s: State, actions: seq<Action>)
    requires actions != [] && NoLateFills(s, actions)
    ensures NoLateFills(s, actions[..|actions| - 1])
    ensures !LateFill(Run(s, actions[..|actions| - 1]), actions[|actions| - 1])
  {
    var before := actions[..|actions| - 1];
    forall k | 0 <= k < |before| ensures !LateFill(Run(s, before[..k]), before[k]) {
      assert before[..k] == actions[..k] && before[k] == actions[k];
    }
  }

  lemma StepRecorded(s: State, a: Action)
    requires Recorded(s)
    ensures Recorded(Next(s, a))
    ensures FilledExact(s) && !LateFill(s, a) ==> FilledExact(Next(s, a))
  {
    StepKeeps(s, a);
    var t := Transitions(s, a);
    hide OrderStep, TrailsEnd, FillsJoin, FilledCovered, FilledExact, LedgerBalanced, WholeCents, FillsTallied,
         CashExplained, OneEntryEach,
         TransfersOk, Effect;
    if t.OrderEffect? {
      StepsInFull(s, a);
      OrderStepTrails(s, t, Next(s, a));
      OrderStepFilled(s, t, Next(s, a));
    } else {
      OtherStepsInFull(s, a);
      if Next(s, a).orders == s.orders {
        UntouchedRecorded(s, Next(s, a));
      } else {
        PlaceRecorded(s, NewRow(a.order, Reservation(a.order, s.cfg.buffer).value), Next(s, a));
      }
    }
  }

  /**
   * In every reachable state each order's trail chains legally from PENDING_SUBMISSION to its
   * current state, and the record is sound; without late fills its filled quantity is exactly what
   * its booked executions add up to, and with them never more.
   */
  lemma {:induction false} EveryRecord(s: State, actions: seq<Action>)
    requires Initial(s)
    ensures Recorded(Run(s, actions))
    ensures NoLateFills(s, actions) ==> FilledExact(Run(s, actions))
  {
    if actions == [] {
      EveryRun(s, actions);
    } else {
      EveryRecord(s, actions[..|actions| - 1]);
      StepRecorded(Run(s, actions[..|actions| - 1]), actions[|actions| - 1]);
      if NoLateFills(s, actions) { NoLateFillsPrefix(s, actions); }
    }
  }

  /** An order whose fills outran its filled quantity never catches up. */
  lemma GapStays(s: State, a: Action, id: OrderId)
    requires Recorded(s) && id < |s.orders| && s.orders[id].filledQty < SumOf(s.fills, FilledBy(id))
    ensures id < |Next(s, a).orders| && Next(s, a).orders[id].filledQty < SumOf(Next(s, a).fills, FilledBy(id))
  {
    var t, next := Transitions(s, a), Next(s, a);
    if t.OrderEffect? {
      StepsInFull(s, a);
      GapStaysInOrderStep(s, t, next, id);
    } else {
      OtherStepsInFull(s, a);
    }
  }

  lemma GapStaysInOrderStep(s: State, t: OrderEffect, next: State, id: OrderId)
    requires OrdersOk(s) && t.OrderEffect? && t.id < |s.orders| && OrderStep(s, t, next)
    requires id < |s.orders| && s.orders[id].filledQty < SumOf(s.fills, FilledBy(id))
    ensures id < |next.orders| && next.orders[id].filledQty < SumOf(next.fills, FilledBy(id))
  {
    hide SumOf, Repositioned, LedgerTail, Notional, InferredRows, MainRow, Plan, Walked;
    AdvanceKeepsOrder(s.orders[t.id], t.kind, t.fill);
    if t.fill.Some? { SumAppend(s.fills, FillRow(s.orders[t.id], t.id, t.fill.value), FilledBy(id)); }
  }

  /** Over a whole run: filled quantities are exact if and only if no fill came late. */
  lemma {:induction false} ExactIffNoneLate(s: State, actions: seq<Action>)
    requires Initial(s)
    ensures FilledExact(Run(s, actions)) <==> NoLateFills(s, actions)
  {
    hide Run, SumOf, Recorded, LateFill, Initial;
    EveryRecord(s, actions);
    if !NoLateFills(s, actions) {
      var k :| 0 <= k < |actions| && LateFill(Run(s, actions[..k]), actions[k]);
      var id := GapOpens(s, actions, k);
      GapLasts(s, actions, k + 1, id);
    }
  }

  lemma GapOpens(s: State, actions: seq<Action>, k: nat) returns (id: OrderId)
    requires Initial(s) && k < |actions| && LateFill(Run(s, actions[..k]), actions[k])
    ensures var e := Run(s, actions[..k + 1]); id < |e.orders| && e.orders[id].filledQty < SumOf(e.fills, FilledBy(id))
  {
    EveryRecord(s, actions[..k]);
    RunStep(s, actions, k);
    var before := Run(s, actions[..k]);
    id := Transitions(before, actions[k]).id;
    hide Run, Transitions, LateFill, Effect, TrailsEnd, SumOf;
    LateFillUncounted(before, Transitions(before, actions[k]), Next(before, actions[k]), actions[k]);
    assert FilledCovered(before);
  }

  lemma {:induction false} GapLasts(s: State, actions: seq<Action>, n: nat, id: OrderId)
    requires Initial(s) && n <= |actions|
    requires var e := Run(s, actions[..n]); id < |e.orders| && e.orders[id].filledQty < SumOf(e.fills, FilledBy(id))
    ensures var e := Run(s, actions); id < |e.orders| && e.orders[id].filledQty < SumOf(e.fills, FilledBy(id))
    decreases |actions| - n
  {
    if n == |actions| {
      assert actions[..n] == actions;
    } else {
      hide Run, Recorded, SumOf, Next, NoLateFills, Initial;
      EveryRecord(s, actions[..n]);
      RunStep(s, actions, n);
      GapStays(Run(s, actions[..n]), actions[n], id);
      GapLasts(s, actions, n + 1, id);
    }
  }

  /** A terminal order never moves again: not its state, its filled quantity or its reservation. */
  lemma OrderTerminalAbsorbs(s: State, a: Action, id: OrderId)
    requires Inv(s) && id < |s.orders| && s.orders[id].state.Terminal()
    ensures id < |Next(s, a).orders|
    ensures Next(s, a).orders[id] == s.orders[id].(needsAttention := Next(s, a).orders[id].needsAttention)
  {
    hide EventApplied, SubmissionGivenUp, CancelRequested, Repositioned, LedgerTail, Notional, LedgerBalanced,
         WholeCents, FillsTallied,
         CashExplained, OneEntryEach, TransfersOk, InferredRows, MainRow, Plan, Walked, WithKey, Seen, Booked;
    StepsInFull(s, a);
    if Transitions(s, a).NoOrderEffect? { OtherStepsInFull(s, a); }
    hide Next, Effect;
    var t := Transitions(s, a);
    if t.OrderEffect? { AdvanceKeepsOrder(s.orders[t.id], t.kind, t.fill); }
  }

  // ---- the stage an order is at, and what it has had filled ----

  /** Nothing is filled before the first fill, and something is from then on. */
  ghost predicate StageOk(o: Order) {
    && (o.state.PendingSubmission? || o.state.Acknowledged? || o.state.Accepted? || o.state.Rejected? || o.state.SubmitFailed? ==>
         o.filledQty == 0)
    && (o.state.PartiallyFilled? || o.state.Filled? ==> 0 < o.filledQty)
  }

  /** Every order is at its stage, and no execution is booked twice. */
  ghost predicate Staged(s: State) {
    && (forall i | 0 <= i < |s.orders| :: StageOk(s.orders[i]))
    && (forall j, k | 0 <= j < k < |s.fills| :: s.fills[j].exec != s.fills[k].exec)
  }

  lemma AdvanceKeepsStage(o: Order, kind: EventKind, fill: Option<Execution>)
    requires OrderOk(o) && StageOk(o) && (fill.Some? <==> kind.IsFill()) && (fill.Some? ==> 0 < fill.value.qty)
    ensures var r := Advance(o, kind, fill); r.Moved? ==> StageOk(r.order)
  {
    hide Advance, HasRoom;
    AdvanceKeepsOrder(o, kind, fill);
    WhoTakesWhat(o, kind, fill);
  }

  lemma StepStaged(s: State, a: Action)
    requires OrdersOk(s) && Staged(s)
    ensures Staged(Next(s, a))
  {
    hide Advance, Repositioned, LedgerTail, Notional, InferredRows, MainRow, Next, Transitions, Seen, StageOk;
    var t, next := Transitions(s, a), Next(s, a);
    StepsInFull(s, a);
    if t.OrderEffect? {
      StagedRow(s, t, next);
    } else {
      OtherStepsInFull(s, a);
      if next.orders != s.orders { FreshStage(a.order, Reservation(a.order, s.cfg.buffer).value); }
    }
  }

  lemma FreshStage(n: NewOrder, reserved: Money)
    ensures StageOk(NewRow(n, reserved))
  {
  }

  lemma StagedRow(s: State, t: OrderEffect, next: State)
    requires OrdersOk(s) && Staged(s) && t.OrderEffect? && t.id < |s.orders| && OrderStep(s, t, next)
    ensures Staged(next)
  {
    hide Advance, Repositioned, LedgerTail, Notional, InferredRows, MainRow, Seen;
    AdvanceKeepsStage(s.orders[t.id], t.kind, t.fill);
  }

  /** So it is in every reachable state. */
  lemma {:induction false} EveryStage(s: State, actions: seq<Action>)
    requires Initial(s)
    ensures Staged(Run(s, actions))
  {
    if actions != [] {
      hide Next, Staged, Initial, LedgerBalanced, WholeCents, FillsTallied, CashExplained, OneEntryEach, TransfersOk;
      EveryStage(s, actions[..|actions| - 1]);
      EveryRun(s, actions[..|actions| - 1]);
      StepStaged(Run(s, actions[..|actions| - 1]), actions[|actions| - 1]);
    }
  }

  /** An order that is open takes ORDER_REJECTED exactly before its first fill and any cancel intent. */
  lemma {:induction false} RejectedBeforeAnyFill(s: State, actions: seq<Action>, id: OrderId)
    requires Initial(s) && id < |Run(s, actions).orders| && Run(s, actions).orders[id].state.Open()
    ensures var o := Run(s, actions).orders[id];
      Takes(o, OrderRejected, 0) <==> o.filledQty == 0 && !o.state.CancelPending?
  {
    hide Run, Initial, LedgerBalanced, WholeCents, FillsTallied, CashExplained, OneEntryEach, TransfersOk;
    EveryStage(s, actions);
    EveryRun(s, actions);
  }

  // ---- idempotency keys ----

  /** No two orders and no two transfers share an idempotency key. */
  ghost predicate KeysApart(s: State) {
    && (forall i, j | 0 <= i < j < |s.orders| :: s.orders[i].key != s.orders[j].key)
    && (forall i, j | 0 <= i < j < |s.transfers| :: s.transfers[i].key != s.transfers[j].key)
  }

  /** What was asked stays as it was; at most one row comes, under a new key. */
  ghost predicate KeysGrow(was: seq<Key>, now: seq<Key>) {
    now == was || (|now| == |was| + 1 && now[..|was|] == was && now[|was|] !in was)
  }

  function OrderKeys(s: State): seq<Key> { seq(|s.orders|, i requires 0 <= i < |s.orders| => s.orders[i].key) }
  function TransferKeys(s: State): seq<Key> { seq(|s.transfers|, i requires 0 <= i < |s.transfers| => s.transfers[i].key) }

  lemma OrderKeysGrow(s: State, a: Action)
    ensures KeysGrow(OrderKeys(s), OrderKeys(Next(s, a)))
  {
    hide Advance, Repositioned, LedgerTail, Notional, InferredRows, MainRow, Next, Effect, Seen;
    var t, next := Transitions(s, a), Next(s, a);
    StepsInFull(s, a);
    if t.OrderEffect? {
      AdvanceKeepsKey(s.orders[t.id], t.kind, t.fill);
      assert OrderKeys(next) == OrderKeys(s);
    } else {
      OtherStepsInFull(s, a);
      if next.orders != s.orders { NewKey(s, a.order); }
    }
  }

  lemma AdvanceKeepsKey(o: Order, kind: EventKind, fill: Option<Execution>)
    ensures var r := Advance(o, kind, fill); r.Moved? ==> r.order.key == o.key
  {
  }

  lemma NewKey(s: State, n: NewOrder)
    requires Placed(s, n).Commit? && Placed(s, n).state != s
    ensures n.key !in OrderKeys(s)
  {
    hide Reservation, FreeCash, Sellable;
  }

  lemma TransferKeysGrow(s: State, a: Action)
    ensures KeysGrow(TransferKeys(s), TransferKeys(Next(s, a)))
  {
    hide EventApplied, CancelRequested, SubmissionGivenUp, Placed, RequestOk, TransferPosted;
    if OnOrders(a) {
      OrdersApart(s, a);
    } else if a.RequestTransfer? && Next(s, a) != s {
      assert TransferKeys(Next(s, a)) == TransferKeys(s) + [a.key];
    } else {
      assert TransferKeys(Next(s, a)) == TransferKeys(s);
    }
  }

  /** In every run a key names one order and one transfer at most: a retried request never makes a second. */
  lemma {:induction false} EveryKeyOnce(s: State, actions: seq<Action>)
    requires Initial(s)
    ensures KeysApart(Run(s, actions))
  {
    if actions != [] {
      var before, a := Run(s, actions[..|actions| - 1]), actions[|actions| - 1];
      EveryKeyOnce(s, actions[..|actions| - 1]);
      OrderKeysGrow(before, a);
      TransferKeysGrow(before, a);
      hide Next;
      KeysStayApart(before, Next(before, a));
    }
  }

  lemma KeysStayApart(s: State, next: State)
    requires KeysApart(s) && KeysGrow(OrderKeys(s), OrderKeys(next)) && KeysGrow(TransferKeys(s), TransferKeys(next))
    ensures KeysApart(next)
  {
    forall i, j | 0 <= i < j < |next.orders| ensures next.orders[i].key != next.orders[j].key {
      assert OrderKeys(next)[i] == next.orders[i].key && OrderKeys(next)[j] == next.orders[j].key;
    }
    forall i, j | 0 <= i < j < |next.transfers| ensures next.transfers[i].key != next.transfers[j].key {
      assert TransferKeys(next)[i] == next.transfers[i].key && TransferKeys(next)[j] == next.transfers[j].key;
    }
  }
}

/** A reconciliation pass over all open orders of an account, and what it can never find. */
module AccountReconciliation {
  import opened Wrappers
  import opened Sums
  import opened MoneyMath
  import opened OrderMachine
  import opened Rows
  import opened Accounting
  import opened ExecutionService
  import opened Engine
  import opened Conservation
  import opened Reconciliation

  datatype Health = Healthy | DriftDetected | Failing

  /** What the venue answers for an order, how long ago it was created, and how long it then is unchanged. */
  type Snapshots = OrderId -> Option<Snapshot>
  type Ages = OrderId -> int

  const LISTING_LIMIT: nat := 100

  function IsOpen(o: Order): int { if o.state.Open() then 1 else 0 }

  /** An order as the listing returned it. */
  datatype Listed = Listed(id: OrderId, seen: OrderState)

  /** The newest open orders, newest first, at most `limit` of them. */
  function OpenOrders(orders: seq<Order>, limit: nat): (listed: seq<Listed>)
    ensures forall l <- listed :: l.id < |orders| && l.seen == orders[l.id].state && l.seen.Open()
    ensures |listed| == (if SumOf(orders, IsOpen) < limit then SumOf(orders, IsOpen) else limit)
    ensures forall id: nat | id < |orders| && orders[id].state.Open() ::
      Listed(id, orders[id].state) in listed || (|listed| == limit && forall l <- listed :: id < l.id)
  {
    if orders == [] then []
    else
      var n := |orders| - 1;
      OpenCount(orders[..n]);
      if limit == 0 then []
      else if orders[n].state.Open() then [Listed(n, orders[n].state)] + OpenOrders(orders[..n], limit - 1)
      else OpenOrders(orders[..n], limit)
  }

  lemma OpenCount(orders: seq<Order>)
    ensures 0 <= SumOf(orders, IsOpen)
  {
    SumNonNegative(orders, IsOpen);
  }

  /** Order by order, each as it was listed; the first to throw ends the pass. */
  function AccountReconciled(s: State, listed: seq<Listed>, snapshots: Snapshots, ages: Ages): Pass
  {
    if listed == [] then Pass(s, false)
    else
      var before, last := AccountReconciled(s, listed[..|listed| - 1], snapshots, ages), listed[|listed| - 1];
      if before.threw then before
      else OrderReconciled(before.db, last.id, last.seen, snapshots(last.id), ages(last.id))
  }

  lemma {:induction false} ThrownStays(s: State, listed: seq<Listed>, snapshots: Snapshots, ages: Ages, n: nat)
    requires n <= |listed| && AccountReconciled(s, listed[..n], snapshots, ages).threw
    ensures AccountReconciled(s, listed, snapshots, ages) == AccountReconciled(s, listed[..n], snapshots, ages)
    decreases |listed| - n
  {
    hide OrderReconciled;
    if n == |listed| {
      assert listed[..n] == listed;
    } else {
      assert listed[..n + 1][..n] == listed[..n];
      ThrownStays(s, listed, snapshots, ages, n + 1);
    }
  }

  datatype Result = Result(ordersChecked: nat, cancelsResent: nat, health: Health)

  /** After its turn the order is as it was listed, CANCEL_PENDING, and has been for over a minute. */
  predicate CancelStuck(s: State, l: Listed, snapshots: Snapshots, still: Ages) {
    && snapshots(l.id).Some? && l.seen.CancelPending? && 60000 < still(l.id)
    && l.id < |s.orders| && s.orders[l.id].state.CancelPending?
  }

  /** How many cancels the pass sends again: one per turn that does not throw and leaves its order stuck. */
  function Resends(s: State, listed: seq<Listed>, snapshots: Snapshots, ages: Ages, still: Ages): nat {
    if listed == [] then 0
    else
      var last, after := listed[|listed| - 1], AccountReconciled(s, listed, snapshots, ages);
      Resends(s, listed[..|listed| - 1], snapshots, ages, still)
        + if !after.threw && CancelStuck(after.db, last, snapshots, still) then 1 else 0
  }

  lemma {:induction false} NoResendsAfterThrow(s: State, listed: seq<Listed>, snapshots: Snapshots, ages: Ages,
                                             still: Ages, n: nat)
    requires n <= |listed| && AccountReconciled(s, listed[..n], snapshots, ages).threw
    ensures Resends(s, listed, snapshots, ages, still) == Resends(s, listed[..n], snapshots, ages, still)
    decreases |listed| - n
  {
    hide OrderReconciled, CancelStuck;
    if n == |listed| {
      assert listed[..n] == listed;
    } else {
      assert listed[..n + 1][..n] == listed[..n];
      NoResendsAfterThrow(s, listed, snapshots, ages, still, n + 1);
    }
  }

  /** One more turn of the pass. */
  lemma OneTurn(s: State, listed: seq<Listed>, snapshots: Snapshots, ages: Ages, still: Ages, n: nat)
    requires n < |listed|
    ensures var before, l := AccountReconciled(s, listed[..n], snapshots, ages), listed[n];
      AccountReconciled(s, listed[..n + 1], snapshots, ages) ==
        if before.threw then before else OrderReconciled(before.db, l.id, l.seen, snapshots(l.id), ages(l.id))
    ensures var after := AccountReconciled(s, listed[..n + 1], snapshots, ages);
      Resends(s, listed[..n + 1], snapshots, ages, still) ==
        Resends(s, listed[..n], snapshots, ages, still)
          + if !after.threw && CancelStuck(after.db, listed[n], snapshots, still) then 1 else 0
  {
    hide OrderReconciled, CancelStuck;
    assert listed[..n + 1][..n] == listed[..n];
  }

  /**
   * reconcileAccount: replay the listed open orders, the newest hundred, then compare cached cash
   * with the ledger. It stops counting orders at the first that throws.
   */
  method ReconcileAccount(tx: Database, snapshots: Snapshots, ages: Ages, still: Ages) returns (result: Result)
    modifies tx
    ensures var before := old(tx.Contents());
      var listed := OpenOrders(before.orders, 100);
      var p := AccountReconciled(before, listed, snapshots, ages);
      && tx.Contents() == p.db
      && (result.health.Failing? <==> p.threw)
      && (result.health.Healthy? <==> !p.threw && p.db.cash == SumOf(p.db.ledger, AmountOf))
      && result.cancelsResent == Resends(before, listed, snapshots, ages, still)
      && result.ordersChecked <= |listed|
      && (!p.threw ==> result.ordersChecked == |listed|)
      && (p.threw ==>
           && 0 < result.ordersChecked
           && AccountReconciled(before, listed[..result.ordersChecked], snapshots, ages).threw
           && !AccountReconciled(before, listed[..result.ordersChecked - 1], snapshots, ages).threw)
  {
    hide OrderReconciled, SumOf, OpenOrders, AccountReconciled, Resends;
    ghost var s := tx.Contents();
    var listed := OpenOrders(tx.orders, LISTING_LIMIT);
    NothingListed(s, snapshots, ages, still);
    var i, resent := 0, 0;
    while i < |listed|
      invariant i <= |listed| && resent == Resends(s, listed[..i], snapshots, ages, still)
      invariant Pass(tx.Contents(), false) == AccountReconciled(s, listed[..i], snapshots, ages)
    {
      var id := listed[i].id;
      OneTurn(s, listed, snapshots, ages, still, i);
      var threw, resend := ReconcileOrder(tx, id, listed[i].seen, snapshots(id), ages(id), still(id));
      if threw {
        ThrownStays(s, listed, snapshots, ages, i + 1);
        NoResendsAfterThrow(s, listed, snapshots, ages, still, i + 1);
        return Result(i + 1, resent, Failing);
      }
      if resend { resent := resent + 1; }
      i := i + 1;
    }
    assert listed[..i] == listed;
    var drift := Reconcile(tx);
    return Result(i, resent, if drift.inBalance then Healthy else DriftDetected);
  }

  lemma NothingListed(s: State, snapshots: Snapshots, ages: Ages, still: Ages)
    ensures AccountReconciled(s, [], snapshots, ages) == Pass(s, false) && Resends(s, [], snapshots, ages, still) == 0
  {
  }

  // ---- a pass is a run of the engine ----

  lemma {:induction false} ReplayIsARun(s: State, cancelling: bool, events: seq<Event>) returns (actions: seq<Action>)
    ensures Replayed(s, cancelling, events).db == Run(s, actions)
  {
    hide EventApplied, Seen;
    actions := [];
    if events != [] {
      var e := events[|events| - 1];
      actions := ReplayIsARun(s, cancelling, events[..|events| - 1]);
      if !Replayed(s, cancelling, events[..|events| - 1]).threw && !(cancelling && PreCancel(e.kind)) {
        assert (actions + [Deliver(e)])[..|actions|] == actions;
        actions := actions + [Deliver(e)];
      }
    }
  }

  lemma {:induction false} AccountPassIsARun(s: State, listed: seq<Listed>, snapshots: Snapshots, ages: Ages)
    returns (actions: seq<Action>)
    ensures AccountReconciled(s, listed, snapshots, ages).db == Run(s, actions)
  {
    actions := [];
    if listed != [] {
      actions := AccountPassIsARun(s, listed[..|listed| - 1], snapshots, ages);
      var before, last := AccountReconciled(s, listed[..|listed| - 1], snapshots, ages), listed[|listed| - 1];
      hide Run, OrderReconciled;
      if !before.threw {
        var more := OrderPassIsARun(before.db, last.id, last.seen, snapshots(last.id), ages(last.id));
        RunConcat(s, actions, more);
        actions := actions + more;
      }
    } else {
      assert AccountReconciled(s, listed, snapshots, ages).db == s == Run(s, []);
    }
  }

  lemma OrderPassIsARun(s: State, id: OrderId, seen: OrderState, snapshot: Option<Snapshot>,
                        age: int) returns (actions: seq<Action>)
    ensures OrderReconciled(s, id, seen, snapshot, age).db == Run(s, actions)
  {
    actions := [];
    assert Run(s, []) == s;
    hide Run, Replayed;
    if snapshot.None? {
      if seen.PendingSubmission? && PENDING_GRACE_MS < age {
        actions := ReplayIsARun(s, false, [Event(OrderSubmitFailed, id, Some(ReconSubmitFailed(id)), None)]);
      }
    } else if SnapshotEvents(snapshot.value).Some? {
      actions := ReplayIsARun(s, seen.CancelPending?, SnapshotEvents(snapshot.value).value);
    }
  }

  /**
   * Whatever the venue answers, a pass that starts in a reachable state ends in one, so its last
   * check never finds drift: the account comes out healthy unless an order's replay threw.
   */
  lemma {:induction false} DriftNeverDetected(s: State, actions: seq<Action>, listed: seq<Listed>,
                                             snapshots: Snapshots, ages: Ages)
    requires Initial(s)
    ensures var p := AccountReconciled(Run(s, actions), listed, snapshots, ages);
      Inv(p.db) && p.db.cash == SumOf(p.db.ledger, AmountOf)
  {
    hide Run, AccountReconciled;
    var more := AccountPassIsARun(Run(s, actions), listed, snapshots, ages);
    RunConcat(s, actions, more);
    EveryRun(s, actions + more);
  }
}

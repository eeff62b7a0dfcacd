/** Cash, ledger, positions and transfers agree to the cent in every reachable state. */
module Conservation {
  import opened Wrappers
  import opened Sums
  import opened MoneyMath
  import opened OrderMachine
  import opened Rows
  import opened Accounting
  import opened Orders
  import opened ExecutionService
  import opened Transfers
  import opened Accounts
  import opened Engine
  import opened Portfolio

  function EntriesFor(ledger: seq<Entry>, ref: Ref): seq<Entry> {
    if ledger == [] then []
    else
      var last := ledger[|ledger| - 1];
      EntriesFor(ledger[..|ledger| - 1], ref) + if last.ref == ref then [last] else []
  }

  lemma EntriesAppend(ledger: seq<Entry>, e: Entry, ref: Ref)
    ensures EntriesFor(ledger + [e], ref) == EntriesFor(ledger, ref) + if e.ref == ref then [e] else []
  {
  }

  lemma {:induction false} HasEntry(ledger: seq<Entry>, ref: Ref, i: nat)
    requires i < |ledger| && ledger[i].ref == ref
    ensures EntriesFor(ledger, ref) != []
  {
    if i < |ledger| - 1 { HasEntry(ledger[..|ledger| - 1], ref, i); }
  }

  lemma {:induction false} NoEntry(ledger: seq<Entry>, ref: Ref)
    requires forall i | 0 <= i < |ledger| :: ledger[i].ref != ref
    ensures EntriesFor(ledger, ref) == []
  {
    if ledger != [] { NoEntry(ledger[..|ledger| - 1], ref); }
  }

  lemma PostedIffEntries(ledger: seq<Entry>, id: TransferId)
    ensures TransferPosted(ledger, id) <==> EntriesFor(ledger, ToTransfer(id)) != []
  {
    hide EntriesFor;
    if i :| 0 <= i < |ledger| && ledger[i].ref == ToTransfer(id) {
      HasEntry(ledger, ToTransfer(id), i);
    } else {
      NoEntry(ledger, ToTransfer(id));
    }
  }

  /** The ledger entries a transfer row must have: one signed entry if SETTLED, none otherwise. */
  function TransferEntries(transfers: seq<Transfer>, id: TransferId): seq<Entry> {
    if id < |transfers| && transfers[id].state.Settled? then
      var t := transfers[id];
      [Entry(if t.direction.Deposit? then DepositEntry else WithdrawalEntry, t.Signed(), ToTransfer(id))]
    else []
  }

  function OpeningEntries(s: State): seq<Entry> {
    if s.status.Active? || s.status.Archived? then [Entry(DepositEntry, s.startingCash, ToAccount)] else []
  }

  function SettledAmount(t: Transfer): Money { if t.state.Settled? then t.Signed() else 0 }

  function BasisCents(p: Position): Money { p.basis / 100 }

  function OpeningPaid(s: State): Money {
    if s.status.Active? || s.status.Archived? then s.startingCash else 0
  }

  // ---- the pieces of the invariant ----

  ghost predicate LedgerBalanced(s: State) {
    s.cash == SumOf(s.ledger, AmountOf)
  }

  /** Every basis is a whole number of cents, and nothing held means no basis. */
  ghost predicate WholeCents(positions: map<InstrumentId, Position>) {
    forall i | i in positions :: positions[i].basis % 100 == 0 && (positions[i].qty == 0 ==> positions[i].basis == 0)
  }

  ghost predicate FillsTallied(s: State) {
    && (forall i | 0 <= i < |s.fills| :: 0 < s.fills[i].qty)
    && Tallied(s.fills).Some? && Tallied(s.fills).value.positions == s.positions
  }

  ghost predicate CashExplained(s: State)
    requires FillsTallied(s)
  {
    s.cash == OpeningPaid(s) + SumOf(s.transfers, SettledAmount) + Tallied(s.fills).value.realized
      - SumOver(s.positions, BasisCents)
  }

  ghost predicate OneEntryEach(s: State) {
    && (forall id: TransferId :: EntriesFor(s.ledger, ToTransfer(id)) == TransferEntries(s.transfers, id))
    && EntriesFor(s.ledger, ToAccount) == OpeningEntries(s)
  }

  ghost predicate TransfersOk(s: State) {
    && (forall i | 0 <= i < |s.transfers| :: 0 < s.transfers[i].amount)
    && (!s.status.Active? ==> forall i | 0 <= i < |s.transfers| :: !s.transfers[i].state.Pending?)
  }

  ghost predicate OrdersOk(s: State) {
    forall i | 0 <= i < |s.orders| :: OrderOk(s.orders[i])
  }

  ghost predicate Inv(s: State) {
    && 0 < s.startingCash
    && LedgerBalanced(s) && WholeCents(s.positions) && FillsTallied(s) && CashExplained(s)
    && OneEntryEach(s) && TransfersOk(s) && OrdersOk(s)
  }

  // ---- what a fill does to the books ----

  /** A sale of held shares goes through, and what it takes out of the basis is what it books as cost. */
  lemma SaleBalances(current: Position, qty: nat, proceeds: Money, fee: Money)
    requires current.basis % 100 == 0 && 0 < qty <= current.qty
    ensures SellFill(Some(current), qty, proceeds, fee).Some?
    ensures var sale := SellFill(Some(current), qty, proceeds, fee).value;
      && sale.position.qty == current.qty - qty
      && sale.position.basis % 100 == 0
      && (sale.position.qty == 0 ==> sale.position.basis == 0)
      && sale.realized == proceeds - fee - (BasisCents(current) - BasisCents(sale.position))
  {
    var cents := current.basis / 100;
    assert current.basis == 100 * cents;
    AllocateWholeCents(cents, qty, current.qty);
    hide Allocate;
    ShareLeavesCents(current.basis, cents, Allocate(current.basis, qty, current.qty).value.share);
  }

  lemma ShareLeavesCents(basis: int, cents: int, share: int)
    requires basis == 100 * cents
    ensures 100 * (cents - share) % 100 == 0 && 100 * (cents - share) / 100 == basis / 100 - share
  {
  }

  /** A fill moves the position's basis by exactly the cash it moves, less the P&L it realizes. */
  lemma FillBalances(current: Option<Position>, f: Fill)
    requires current.Some? ==> current.value.basis % 100 == 0
    requires 0 < f.qty
    requires Repositioned(current, f.side, f.qty, f.notional, f.fee).Some?
    ensures var next := Repositioned(current, f.side, f.qty, f.notional, f.fee).value;
      && next.basis % 100 == 0 && (next.qty == 0 ==> next.basis == 0)
      && TradeAmount(f.side, f.notional) - f.fee ==
         RealizedBy(current, f) - BasisCents(next) + (if current.Some? then BasisCents(current.value) else 0)
  {
    if f.side.Sell? {
      SaleBalances(current.value, f.qty, f.notional, f.fee);
    }
  }

  /** The books after one more fill: every piece of the cash equation moves by a known amount. */
  lemma FillTallies(s: State, f: Fill)
    requires FillsTallied(s) && WholeCents(s.positions) && 0 < f.qty
    requires Repositioned(Lookup(s.positions, f.instrument), f.side, f.qty, f.notional, f.fee).Some?
    ensures var current := Lookup(s.positions, f.instrument);
      var next := s.(
        fills := s.fills + [f],
        positions := s.positions[f.instrument := Repositioned(current, f.side, f.qty, f.notional, f.fee).value]);
      && FillsTallied(next) && WholeCents(next.positions)
      && Tallied(next.fills).value.realized - SumOver(next.positions, BasisCents) ==
         Tallied(s.fills).value.realized - SumOver(s.positions, BasisCents) + TradeAmount(f.side, f.notional) - f.fee
  {
    var current := Lookup(s.positions, f.instrument);
    var position := Repositioned(current, f.side, f.qty, f.notional, f.fee).value;
    assert (s.fills + [f])[..|s.fills|] == s.fills;
    FillBalances(current, f);
    SumPut(s.positions, f.instrument, position, BasisCents);
  }

  /** The one or two entries of a trade, filed under the execution's ref. */
  lemma TailPosted(ledger: seq<Entry>, side: Side, x: Execution)
    ensures SumOf(ledger + LedgerTail(side, x), AmountOf) ==
      SumOf(ledger, AmountOf) + TradeAmount(side, Notional(x.price, x.qty)) - x.fee
    ensures forall ref: Ref | !ref.ToFill? :: EntriesFor(ledger + LedgerTail(side, x), ref) == EntriesFor(ledger, ref)
  {
    var tail := LedgerTail(side, x);
    SumAppend(ledger, tail[0], AmountOf);
    if x.fee != 0 {
      SumAppend(ledger + [tail[0]], tail[1], AmountOf);
      assert ledger + tail == ledger + [tail[0]] + [tail[1]];
    }
    forall ref: Ref | !ref.ToFill? ensures EntriesFor(ledger + tail, ref) == EntriesFor(ledger, ref) {
      EntriesAppend(ledger, tail[0], ref);
      if x.fee != 0 { EntriesAppend(ledger + [tail[0]], tail[1], ref); }
    }
  }

  lemma FillStep(s: State, t: OrderEffect, next: State)
    requires Inv(s) && t.OrderEffect? && t.id < |s.orders| && OrderStep(s, t, next) && t.fill.Some?
    ensures LedgerBalanced(next) && WholeCents(next.positions) && FillsTallied(next) && CashExplained(next)
    ensures OneEntryEach(next)
  {
    var o, x := s.orders[t.id], t.fill.value;
    var f := FillRow(o, t.id, x);
    FillTallies(s, f);
    TailPosted(s.ledger, o.side, x);
  }

  lemma OrderStepKeeps(s: State, t: OrderEffect, next: State)
    requires Inv(s) && t.OrderEffect? && t.id < |s.orders| && OrderStep(s, t, next)
    ensures Inv(next)
  {
    AdvanceKeepsOrder(s.orders[t.id], t.kind, t.fill);
    if t.fill.Some? { FillStep(s, t, next); }
  }

  // ---- what the other transactions do ----

  /** A posted entry shows up under its own ref and nowhere else. */
  lemma PostingKeeps(s: State, e: Entry)
    requires LedgerBalanced(s)
    ensures SumOf(s.ledger + [e], AmountOf) == s.cash + e.amount
    ensures forall ref: Ref :: EntriesFor(s.ledger + [e], ref) == EntriesFor(s.ledger, ref) + if ref == e.ref then [e] else []
  {
  }

  lemma ActivateKeeps(s: State, reported: Money)
    requires Inv(s)
    ensures Inv(Next(s, Activate(reported)))
  {
    PostingKeeps(s, Entry(DepositEntry, s.startingCash, ToAccount));
  }

  lemma PlaceKeeps(s: State, n: NewOrder)
    requires Inv(s)
    ensures Inv(Next(s, PlaceOrder(n)))
  {
    hide SumOf, SumOver, EntriesFor, Tallied, WithKey, Reservation, Sellable, FreeCash, OrderOk, NewRow;
    if ShapeOk(n) && Reservation(n, s.cfg.buffer).Some? { NewRowIsOk(n, s.cfg.buffer); }
  }

  lemma NewRowIsOk(n: NewOrder, buffer: Ratio)
    requires ShapeOk(n) && Reservation(n, buffer).Some?
    ensures OrderOk(NewRow(n, Reservation(n, buffer).value))
  {
    hide Notional, ReserveWithBuffer;
  }

  /** A row that stays unsettled: no ledger effect, no settled amount. */
  lemma UnsettledRowKeeps(s: State, id: TransferId, row: Transfer)
    requires Inv(s) && id < |s.transfers| && 0 < row.amount
    requires !s.transfers[id].state.Settled? && !row.state.Settled?
    requires row.state.Pending? ==> s.transfers[id].state.Pending?
    ensures Inv(s.(transfers := s.transfers[id := row]))
  {
    hide SumOf, SumOver, EntriesFor, Tallied, OrderOk;
    SumUpdate(s.transfers, id, row, SettledAmount);
  }

  lemma SettleKeeps(s: State, id: TransferId)
    requires Inv(s) && s.status.Active? && id < |s.transfers| && SettledLocked(s, id).Commit?
    ensures Inv(SettledLocked(s, id).state)
  {
    hide SumOf, SumOver, EntriesFor, Tallied, OrderOk;
    var t := s.transfers[id];
    PostingKeeps(s, Entry(if t.direction.Deposit? then DepositEntry else WithdrawalEntry, t.Signed(), ToTransfer(id)));
    SumUpdate(s.transfers, id, t.(state := Settled), SettledAmount);
  }

  /** The unique index on CASH_TRANSFER refs is never what stops a settlement. */
  lemma UniqueIndexNeverFires(s: State, id: TransferId)
    requires Inv(s) && id < |s.transfers| && s.transfers[id].state.Pending?
    ensures !TransferPosted(s.ledger, id)
  {
    PostedIffEntries(s.ledger, id);
  }

  lemma RequestKeeps(s: State, direction: Direction, amount: Money, key: Key, now: int)
    requires Inv(s)
    ensures Inv(Next(s, RequestTransfer(direction, amount, key, now)))
  {
    hide SumOf, SumOver, Tallied, WithKey, RequestOk, OrderOk, EntriesFor;
    var next := Next(s, RequestTransfer(direction, amount, key, now));
    if next != s {
      var t := next.transfers[|s.transfers|];
      assert next.transfers == s.transfers + [t];
      SumAppend(s.transfers, t, SettledAmount);
      forall i: TransferId ensures TransferEntries(next.transfers, i) == TransferEntries(s.transfers, i) {}
    }
  }

  lemma TransferStepKeeps(s: State, a: Action)
    requires Inv(s) && (a.RecordVenue? || a.ApplyVenue? || a.FailTransfer? || a.StampCanceled?)
    ensures Inv(Next(s, a))
  {
    hide SumOf, SumOver, EntriesFor, Tallied, OrderOk, TransferPosted, VenueIdLinked;
    if Next(s, a) != s {
      var id := a.transfer;
      if
        && a.ApplyVenue? && VenueStateApplied(s, id, a.view) == SettledLocked(s, id)
        && s.status.Active? && s.transfers[id].state.Pending? && a.view.state.VenueSettled?
      {
        SettleKeeps(s, id);
      } else if a.RecordVenue? {
        SumUpdate(s.transfers, id, Next(s, a).transfers[id], SettledAmount);
        assert forall i: TransferId :: TransferEntries(Next(s, a).transfers, i) == TransferEntries(s.transfers, i);
      } else {
        UnsettledRowKeeps(s, id, Next(s, a).transfers[id]);
      }
    }
  }

  lemma {:induction false} CancelAllSum(rows: seq<Transfer>, canceled: seq<Transfer>)
    requires |canceled| == |rows| && forall i | 0 <= i < |rows| :: canceled[i] == CanceledByReset(rows[i])
    ensures SumOf(canceled, SettledAmount) == SumOf(rows, SettledAmount)
  {
    if rows != [] {
      CancelAllSum(rows[..|rows| - 1], canceled[..|rows| - 1]);
    }
  }

  lemma ArchiveKeeps(s: State)
    requires Inv(s)
    ensures Inv(Next(s, ArchiveAccount))
  {
    hide SumOf, SumOver, EntriesFor, Tallied, OrderOk;
    if s.status.Active? {
      CancelAllSum(s.transfers, Next(s, ArchiveAccount).transfers);
      forall id: TransferId ensures TransferEntries(Next(s, ArchiveAccount).transfers, id) == TransferEntries(s.transfers, id) {}
    }
  }

  lemma StepKeeps(s: State, a: Action)
    requires Inv(s)
    ensures Inv(Next(s, a))
  {
    StepsInFull(s, a);
    hide EventApplied, SubmissionGivenUp, CancelRequested, OrderStep, SumOf, SumOver, EntriesFor, Tallied, OrderOk;
    if Next(s, a) != s {
      match a
      case LinkVenue =>
      case RefuseProvision =>
      case Activate(reported) => ActivateKeeps(s, reported);
      case ArchiveAccount => ArchiveKeeps(s);
      case PlaceOrder(n) => PlaceKeeps(s, n);
      case CancelOrder(_) => OrderStepKeeps(s, Transitions(s, a), Next(s, a));
      case GiveUp(_, _) => OrderStepKeeps(s, Transitions(s, a), Next(s, a));
      case Deliver(_) => OrderStepKeeps(s, Transitions(s, a), Next(s, a));
      case RequestTransfer(direction, amount, key, now) => RequestKeeps(s, direction, amount, key, now);
      case _ => TransferStepKeeps(s, a);
    }
  }

  lemma {:induction false} EveryRun(s: State, actions: seq<Action>)
    requires Initial(s)
    ensures Inv(Run(s, actions))
  {
    if actions == [] {
      assert FillsTallied(s);
    } else {
      EveryRun(s, actions[..|actions| - 1]);
      StepKeeps(Run(s, actions[..|actions| - 1]), actions[|actions| - 1]);
    }
  }

  // ---- what every run therefore satisfies ----

  /**
   * Exact conservation: cached cash is the ledger's sum, and to the cent the opening deposit plus
   * settled transfers plus the P&L a replay of the fills realizes, less the cost basis still open;
   * the replay rebuilds every stored position. Late fills on terminal orders are included.
   */
  lemma {:induction false} ExactConservation(s: State, actions: seq<Action>)
    requires Initial(s)
    ensures var e := Run(s, actions);
      && e.cash == SumOf(e.ledger, AmountOf)
      && Replay(e.fills).Some? && Replay(e.fills).value.positions == e.positions
      && e.cash == OpeningPaid(e) + SumOf(e.transfers, SettledAmount) + Replay(e.fills).value.realized
                   - SumOver(e.positions, BasisCents)
  {
    EveryRun(s, actions);
    ReplayIsBookkeeping(Run(s, actions).fills);
  }

  /** In every reachable state each basis is whole cents, so no sale of held shares is ever refused. */
  lemma AllocationNeverRefuses(s: State, actions: seq<Action>, i: InstrumentId, sold: nat)
    requires Initial(s) && i in Run(s, actions).positions
    requires 0 < sold <= Run(s, actions).positions[i].qty
    ensures var p := Run(s, actions).positions[i];
      && p.basis % 100 == 0
      && var r := Allocate(p.basis, sold, p.qty);
      && r.Some? && (0 - p.qty) <= 2 * (r.value.share * p.qty - BasisCents(p) * sold) <= p.qty
  {
    EveryRun(s, actions);
    var p := Run(s, actions).positions[i];
    assert p.basis == 100 * BasisCents(p);
    AllocateWholeCents(BasisCents(p), sold, p.qty);
  }

  /** What the buys of an instrument cost, fees included. */
  function Bought(fills: seq<Fill>, i: InstrumentId): Money {
    if fills == [] then 0
    else
      var f := fills[|fills| - 1];
      Bought(fills[..|fills| - 1], i) + if f.side.Buy? && f.instrument == i then f.notional + f.fee else 0
  }

  /** The cost basis the sales of an instrument have been allocated. */
  function Allocated(fills: seq<Fill>, i: InstrumentId): Money
    requires Tallied(fills).Some?
  {
    if fills == [] then 0
    else
      var before, f := fills[..|fills| - 1], fills[|fills| - 1];
      var current := Lookup(Tallied(before).value.positions, f.instrument);
      Allocated(before, i) +
        if f.side.Sell? && f.instrument == i then SellFill(current, f.qty, f.notional, f.fee).value.share else 0
  }

  /** Basis never drifts: what is left is what was bought less what was allocated, to the cent. */
  lemma {:induction false} BasisNeverDrifts(fills: seq<Fill>, i: InstrumentId)
    requires forall k | 0 <= k < |fills| :: 0 < fills[k].qty
    requires Tallied(fills).Some?
    ensures WholeCents(Tallied(fills).value.positions)
    ensures var position := Lookup(Tallied(fills).value.positions, i);
      && Bought(fills, i) - Allocated(fills, i) == (if position.Some? then BasisCents(position.value) else 0)
      && (position.Some? && position.value.qty == 0 ==> Allocated(fills, i) == Bought(fills, i))
  {
    if fills != [] {
      var before, f := fills[..|fills| - 1], fills[|fills| - 1];
      BasisNeverDrifts(before, i);
      var current := Lookup(Tallied(before).value.positions, f.instrument);
      FillBalances(current, f);
      if f.side.Sell? { SaleBalances(current.value, f.qty, f.notional, f.fee); }
    }
  }

  /** A transfer has exactly one CASH_TRANSFER entry, signed, if SETTLED and none otherwise. */
  lemma {:induction false} OneLedgerEffectPerTransfer(s: State, actions: seq<Action>, id: TransferId)
    requires Initial(s) && id < |Run(s, actions).transfers|
    ensures var e := Run(s, actions); var t := e.transfers[id];
      EntriesFor(e.ledger, ToTransfer(id)) ==
        if t.state.Settled? then
          [Entry(if t.direction.Deposit? then DepositEntry else WithdrawalEntry, t.Signed(), ToTransfer(id))]
        else []
    ensures Run(s, actions).status.Archived? ==> !Run(s, actions).transfers[id].state.Pending?
  {
    EveryRun(s, actions);
  }

  /** A PENDING row after the venue's view of it, whole: what it becomes, and what becomes of the money. */
  ghost predicate Decided(s: State, id: TransferId, v: VenueTransfer, next: State)
    requires id < |s.transfers|
  {
    var t := s.transfers[id];
    if !s.status.Active? then
      next == s.(transfers := s.transfers[id :=
        t.(state := Canceled, reason := if v.state.VenueSettled? then SettledAnyway else ByInactive)])
    else if v.state.VenuePending? || v.direction != t.direction || v.amount != t.amount then next == s
    else if v.state.VenueFailed? then
      next == s.(transfers := s.transfers[id := t.(state := Failed, reason := ByVenue)])
    else if t.direction.Deposit? then
      next == s.(cash := s.cash + t.amount, ledger := s.ledger + [Entry(DepositEntry, t.amount, ToTransfer(id))],
                 transfers := s.transfers[id := t.(state := Settled)])
    else if s.cash < t.amount then next == s
    else
      next == s.(cash := s.cash - t.amount, ledger := s.ledger + [Entry(WithdrawalEntry, 0 - t.amount, ToTransfer(id))],
                 transfers := s.transfers[id := t.(state := Settled)])
  }

  lemma ViewDecides(s: State, id: TransferId, v: VenueTransfer)
    requires id < |s.transfers| && s.transfers[id].state.Pending? && 0 < s.transfers[id].amount
    requires EntriesFor(s.ledger, ToTransfer(id)) == []
    ensures Decided(s, id, v, Next(s, ApplyVenue(id, v)))
  {
    hide TransferPosted, EntriesFor;
    PostedIffEntries(s.ledger, id);
  }

  /**
   * In every reachable state the venue's view of a PENDING transfer is applied in full: what it says
   * has settled settles, unless the view is of another transfer or a withdrawal exceeds the cash.
   */
  lemma VenueViewDecides(s: State, actions: seq<Action>, id: TransferId, v: VenueTransfer)
    requires Initial(s) && id < |Run(s, actions).transfers| && Run(s, actions).transfers[id].state.Pending?
    ensures Decided(Run(s, actions), id, v, Next(Run(s, actions), ApplyVenue(id, v)))
  {
    hide Run, EntriesFor, Decided, Next;
    EveryRun(s, actions);
    ViewDecides(Run(s, actions), id, v);
  }

  /** Terminal transfer states are absorbing, and what was requested never changes. */
  lemma TransferTerminalAbsorbs(s: State, a: Action, id: TransferId)
    requires id < |s.transfers|
    ensures var t, u := s.transfers[id], Next(s, a).transfers;
      && id < |u| && u[id].direction == t.direction && u[id].amount == t.amount && u[id].createdAt == t.createdAt
      && (!t.state.Pending? ==> u[id].state == t.state)
      && (t.venueId.Some? ==> u[id].venueId == t.venueId)
  {
    hide EventApplied, CancelRequested, SubmissionGivenUp, Placed, RequestOk, WithKey, TransferPosted;
    if OnOrders(a) { OrdersApart(s, a); }
  }

  /** A settling withdrawal takes exactly its amount and never leaves cash below zero. */
  lemma WithdrawalNeverOverdraws(s: State, a: Action, id: TransferId)
    requires id < |s.transfers| && s.transfers[id].state.Pending? && s.transfers[id].direction.Withdrawal?
    requires Next(s, a).transfers[id].state.Settled?
    ensures 0 <= Next(s, a).cash == s.cash - s.transfers[id].amount
  {
    hide EventApplied, CancelRequested, SubmissionGivenUp, Placed, RequestOk, WithKey, TransferPosted;
    if OnOrders(a) { OrdersApart(s, a); }
  }

  /** One opening DEPOSIT equal to the starting cash once ACTIVE or ARCHIVED, none before. */
  lemma {:induction false} OpeningDepositOnce(s: State, actions: seq<Action>)
    requires Initial(s)
    ensures var e := Run(s, actions);
      EntriesFor(e.ledger, ToAccount) ==
        if e.status.Active? || e.status.Archived? then [Entry(DepositEntry, s.startingCash, ToAccount)] else []
  {
    EveryRun(s, actions);
    ConfigKept(s, actions);
  }

  lemma {:induction false} ConfigKept(s: State, actions: seq<Action>)
    ensures Run(s, actions).cfg == s.cfg && Run(s, actions).startingCash == s.startingCash
      && Run(s, actions).openedAt == s.openedAt
  {
    if actions != [] {
      ConfigKept(s, actions[..|actions| - 1]);
      ConfigStays(Run(s, actions[..|actions| - 1]), actions[|actions| - 1]);
      hide Next;
    }
  }

  lemma ConfigStays(s: State, a: Action)
    ensures Next(s, a).cfg == s.cfg && Next(s, a).startingCash == s.startingCash && Next(s, a).openedAt == s.openedAt
  {
    hide EventApplied, CancelRequested, SubmissionGivenUp, Placed, WithKey, RequestOk, TransferPosted, VenueIdLinked,
         CanceledByReset;
    if OnOrders(a) { OrdersApart(s, a); }
  }

  /** Only a sufficiently funded activation opens an account. */
  lemma OnlyFundingOpens(s: State, a: Action)
    requires OpeningPaid(s) == 0 && OpeningPaid(Next(s, a)) != 0 && 0 < s.startingCash
    ensures a.Activate? && s.startingCash <= a.reported
  {
  }

  /** No opening deposit before some poller was told the venue holds at least the starting cash. */
  lemma {:induction false} OpeningWaitsForFunds(s: State, actions: seq<Action>)
    requires Initial(s) && EntriesFor(Run(s, actions).ledger, ToAccount) != []
    ensures exists k | 0 <= k < |actions| :: actions[k].Activate? && s.startingCash <= actions[k].reported
  {
    OpeningDepositOnce(s, actions);
    ConfigKept(s, actions);
    FundingCame(s, actions);
  }

  lemma {:induction false} FundingCame(s: State, actions: seq<Action>)
    requires Initial(s) && OpeningPaid(Run(s, actions)) != 0
    ensures exists k | 0 <= k < |actions| :: actions[k].Activate? && s.startingCash <= actions[k].reported
  {
    if actions != [] {
      var before, a := actions[..|actions| - 1], actions[|actions| - 1];
      ConfigKept(s, before);
      if OpeningPaid(Run(s, before)) != 0 {
        FundingCame(s, before);
        var k :| 0 <= k < |before| && before[k].Activate? && s.startingCash <= before[k].reported;
        assert actions[k] == before[k];
      } else {
        OnlyFundingOpens(Run(s, before), a);
      }
    }
  }
}

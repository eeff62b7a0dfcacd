/**
 * The tables of one paper account. `State` is their contents as a value; `Database` is the
 * mutable store a transaction works on. Rows are numbered by insertion.
 */
module Rows {
  import opened Wrappers
  import opened Sums
  import opened MoneyMath
  import opened OrderMachine

  type OrderId = nat
  type TransferId = nat
  type VenueId = nat

  /** The order statuses a venue snapshot can carry. */
  datatype VendorStatus =
    | NewAtVenue | AcceptedAtVenue | PendingNew | PendingCancel | PartiallyFilledAtVenue | FilledAtVenue
    | CanceledAtVenue | RejectedAtVenue | ExpiredAtVenue | DoneForDay | OtherStatus

  /** Envelope ids: the venue's own stream ids, and those reconciliation synthesizes. */
  datatype EnvelopeId =
    | StreamId(ulid: nat)
    | ReconFill(exec: ExecId)
    | ReconStatus(order: OrderId, status: VendorStatus)
    | ReconSubmitFailed(order: OrderId)

  datatype Source = FromBroker | Local | Inferred

  datatype AuditRow = AuditRow(order: OrderId, kind: EventKind, from: OrderState, to: Option<OrderState>,
                               source: Source, ext: Option<EnvelopeId>)

  /** A fills row, with the side and instrument of the order it joins; `at` is when the venue executed it. */
  datatype Fill = Fill(order: OrderId, side: Side, instrument: InstrumentId, qty: nat, price: Px,
                       fee: Money, notional: Money, exec: ExecId, at: int)

  /** basis is in ten-thousandths of a dollar. */
  datatype Position = Position(qty: nat, basis: nat)

  datatype EntryType = DepositEntry | WithdrawalEntry | TradeEntry | FeeEntry
  datatype Ref = ToAccount | ToFill(exec: ExecId) | ToTransfer(id: TransferId)
  datatype Entry = Entry(typ: EntryType, amount: Money, ref: Ref)

  datatype Direction = Deposit | Withdrawal
  datatype TransferState = Pending | Settled | Failed | Canceled
  datatype Reason = NoReason | ByVenue | ByReset | ByInactive | SettledAnyway | ConfirmedNeverSettled

  datatype Transfer = Transfer(direction: Direction, amount: Money, key: Key, createdAt: int,
                               state: TransferState, venueId: Option<VenueId>, reason: Reason)
  {
    /** The amount as the ledger signs it. */
    function Signed(): Money { if direction.Deposit? then amount else -amount }
  }

  datatype AccountStatus = Provisioning | Active | Archived | ProvisioningFailed

  datatype Config = Config(buffer: Ratio, minAmount: Money, maxPerTransfer: Money, depositCap: Money,
                           depositWindow: nat)

  datatype State = State(
    cfg: Config, startingCash: Money, openedAt: int,
    status: AccountStatus, linked: bool, cash: Money, ledger: seq<Entry>,
    orders: seq<Order>, audit: seq<AuditRow>, fills: seq<Fill>,
    positions: map<InstrumentId, Position>, transfers: seq<Transfer>)

  /** The tables after a transaction. */
  function Committed(s: State, o: Outcome<State>): State { if o.Commit? then o.state else s }

  // ---- queries of the repositories ----

  predicate Seen(audit: seq<AuditRow>, ext: EnvelopeId) {
    exists i | 0 <= i < |audit| :: audit[i].ext == Some(ext)
  }

  predicate Booked(fills: seq<Fill>, exec: ExecId) {
    exists i | 0 <= i < |fills| :: fills[i].exec == exec
  }

  function AmountOf(e: Entry): Money { e.amount }

  /** What an order holds back from buying power. */
  function BuyHold(o: Order): Money {
    if o.side.Buy? && o.state.Open() then o.reservedCash else 0
  }

  /** What an order holds back from the sellable shares of `instrument`. */
  function SellHold(instrument: InstrumentId): Order -> int {
    (o: Order) =>
      if o.side.Sell? && o.instrument == instrument && o.state.Open() then o.qty - o.filledQty else 0
  }

  function WithdrawalHold(t: Transfer): Money {
    if t.direction.Withdrawal? && t.state.Pending? then t.amount else 0
  }

  /** cash - open BUY reservations - pending withdrawals: buying power, and what may be withdrawn. */
  function FreeCash(s: State): Money {
    s.cash - SumOf(s.orders, BuyHold) - SumOf(s.transfers, WithdrawalHold)
  }

  // The same figures as the repositories ask for them: a column, summed over the rows selected.

  predicate OpenBuy(o: Order) {
    && o.side.Buy?
    && (o.state.PendingSubmission? || o.state.Acknowledged? || o.state.Accepted? || o.state.PartiallyFilled?
      || o.state.CancelPending?)
  }

  function OpenSell(instrument: InstrumentId): Order -> bool {
    (o: Order) =>
      && o.side.Sell? && o.instrument == instrument
      && (o.state.PendingSubmission? || o.state.Acknowledged? || o.state.Accepted? || o.state.PartiallyFilled?
        || o.state.CancelPending?)
  }

  predicate PendingWithdrawal(t: Transfer) { t.direction.Withdrawal? && t.state.Pending? }

  function ReservedCash(o: Order): Money { o.reservedCash }
  function Remainder(o: Order): int { o.qty - o.filledQty }
  function AmountAsked(t: Transfer): Money { t.amount }

  /** Buying power is cash, less what open buys reserve, less what pending withdrawals ask for. */
  lemma BuyingPowerIs(s: State)
    ensures FreeCash(s) == s.cash - SumOf(Where(s.orders, OpenBuy), ReservedCash)
                           - SumOf(Where(s.transfers, PendingWithdrawal), AmountAsked)
  {
    SumWhere(s.orders, OpenBuy, ReservedCash, BuyHold);
    SumWhere(s.transfers, PendingWithdrawal, AmountAsked, WithdrawalHold);
  }

  /** What open sells of an instrument promise is their remainders. */
  lemma PromisedIs(orders: seq<Order>, instrument: InstrumentId)
    ensures SumOf(orders, SellHold(instrument)) == SumOf(Where(orders, OpenSell(instrument)), Remainder)
  {
    SumWhere(orders, OpenSell(instrument), Remainder, SellHold(instrument));
  }

  function HeldQty(s: State, instrument: InstrumentId): nat {
    if instrument in s.positions then s.positions[instrument].qty else 0
  }

  function OrderKey(o: Order): Key { o.key }
  function TransferKey(t: Transfer): Key { t.key }

  /** The row with an idempotency key, if there is one. */
  function WithKey<T>(rows: seq<T>, keyOf: T -> Key, key: Key): (r: Option<nat>)
    ensures r.Some? ==> r.value < |rows| && keyOf(rows[r.value]) == key
    ensures r.None? ==> forall i | 0 <= i < |rows| :: keyOf(rows[i]) != key
  {
    if rows == [] then None
    else if keyOf(rows[|rows| - 1]) == key then Some(|rows| - 1)
    else WithKey(rows[..|rows| - 1], keyOf, key)
  }

  predicate VenueIdLinked(transfers: seq<Transfer>, id: VenueId) {
    exists i | 0 <= i < |transfers| :: transfers[i].venueId == Some(id)
  }

  /** The store behind a transaction. */
  class Database {
    const cfg: Config
    const startingCash: Money
    const openedAt: int
    var status: AccountStatus
    var linked: bool
    var cash: Money
    var ledger: seq<Entry>
    var orders: seq<Order>
    var audit: seq<AuditRow>
    var fills: seq<Fill>
    var positions: map<InstrumentId, Position>
    var transfers: seq<Transfer>

    /** A freshly created account: AccountsRepository.create. */
    constructor (cfg: Config, startingCash: Money, openedAt: int)
      ensures Contents() == State(cfg, startingCash, openedAt, Provisioning, false, 0, [], [], [], [], map[], [])
    {
      this.cfg, this.startingCash, this.openedAt := cfg, startingCash, openedAt;
      status, linked, cash, ledger := Provisioning, false, 0, [];
      orders, audit, fills, positions, transfers := [], [], [], map[], [];
    }

    function Contents(): State
      reads this
    {
      State(cfg, startingCash, openedAt, status, linked, cash, ledger, orders, audit, fills, positions, transfers)
    }

    /** What the transaction runner does when a body throws. */
    method Rollback(before: State)
      requires before.cfg == cfg && before.startingCash == startingCash && before.openedAt == openedAt
      modifies this
      ensures Contents() == before
    {
      status, linked, cash, ledger := before.status, before.linked, before.cash, before.ledger;
      orders, audit, fills := before.orders, before.audit, before.fills;
      positions, transfers := before.positions, before.transfers;
    }
  }
}

/** Paper cash transfers: the request rules and every transaction that touches a transfer row. */
module Transfers {
  import opened Wrappers
  import opened Sums
  import opened MoneyMath
  import opened OrderMachine
  import opened Rows
  import opened Accounting

  predicate CanTransition(from: TransferState, to: TransferState) {
    from.Pending? && !to.Pending?
  }

  /** What a row counts toward the cap of a window starting at `since`: deposits that still stand. */
  function Standing(t: Transfer, since: int): Money {
    if t.direction.Deposit? && (t.state.Pending? || t.state.Settled?) && since <= t.createdAt then t.amount else 0
  }

  function CountsSince(since: int): Transfer -> Money {
    (t: Transfer) => Standing(t, since)
  }

  function DepositedInWindow(s: State, now: int): Money {
    var since := now - s.cfg.depositWindow;
    SumOf(s.transfers, CountsSince(since)) + if since <= s.openedAt then s.startingCash else 0
  }

  /** computeWithdrawable and depositRemaining: floored at zero. */
  function Floored(amount: Money): Money { if amount < 0 then 0 else amount }

  /** checkTransferRequest: false where it throws. */
  predicate RequestOk(s: State, direction: Direction, amount: Money, now: int) {
    && s.cfg.minAmount <= amount <= s.cfg.maxPerTransfer
    && (direction.Deposit? ==> amount <= Floored(s.cfg.depositCap - DepositedInWindow(s, now)))
    && (direction.Withdrawal? ==> amount <= Floored(FreeCash(s)))
  }

  /** The transaction of `request`. The fingerprint of a key is its direction and amount. */
  function Requested(s: State, direction: Direction, amount: Money, key: Key, now: int): Outcome<State> {
    var existing := WithKey(s.transfers, TransferKey, key);
    if existing.Some? then
      var t := s.transfers[existing.value];
      if t.direction == direction && t.amount == amount then Commit(s) else Abort
    else if !s.status.Active? || !RequestOk(s, direction, amount, now) || !s.linked || amount <= 0 then Abort
    else Commit(s.(transfers := s.transfers + [Transfer(direction, amount, key, now, Pending, None, NoReason)]))
  }

  method Request(tx: Database, direction: Direction, amount: Money, key: Key, now: int)
    returns (id: Option<TransferId>)
    modifies tx
    ensures id.Some? <==> Requested(old(tx.Contents()), direction, amount, key, now).Commit?
    ensures tx.Contents() == if id.Some? then Requested(old(tx.Contents()), direction, amount, key, now).state
      else old(tx.Contents())
    ensures id.Some? ==>
      && id.value < |tx.transfers|
      && tx.transfers[id.value].key == key
      && tx.transfers[id.value].direction == direction && tx.transfers[id.value].amount == amount
    ensures (exists t <- old(tx.transfers) :: t.key == key) ==> tx.Contents() == old(tx.Contents())
  {
    var existing := WithKey(tx.transfers, TransferKey, key);
    if existing.Some? {
      var t := tx.transfers[existing.value];
      if t.direction != direction || t.amount != amount { return None; }
      return existing;
    }
    if !tx.status.Active? { return None; }
    if !RequestOk(tx.Contents(), direction, amount, now) { return None; }
    if !tx.linked || amount <= 0 { return None; }
    tx.transfers := tx.transfers + [Transfer(direction, amount, key, now, Pending, None, NoReason)];
    return Some(|tx.transfers| - 1);
  }

  /** A deposit that stands, settled or on its way, asked for at `since` or later. */
  function StandingDeposit(since: int): Transfer -> bool {
    (t: Transfer) => t.direction.Deposit? && (t.state.Pending? || t.state.Settled?) && since <= t.createdAt
  }

  /** What a new request may ask for, from the rows: the configured limits, and room for it. */
  ghost predicate RoomFor(s: State, direction: Direction, amount: Money, now: int) {
    var since := now - s.cfg.depositWindow;
    match direction
    case Deposit =>
      amount + SumOf(Where(s.transfers, StandingDeposit(since)), AmountAsked)
        + (if since <= s.openedAt then s.startingCash else 0) <= s.cfg.depositCap
    case Withdrawal =>
      amount + SumOf(Where(s.orders, OpenBuy), ReservedCash)
        + SumOf(Where(s.transfers, PendingWithdrawal), AmountAsked) <= s.cash
  }

  /**
   * A new request is accepted exactly on an ACTIVE linked account, for a positive amount within the
   * limits that there is room for: in the trailing window for a deposit, in free cash for a
   * withdrawal. It then adds one PENDING row and touches nothing else.
   */
  lemma NewTransferIff(s: State, direction: Direction, amount: Money, key: Key, now: int)
    requires forall t <- s.transfers :: t.key != key
    ensures Requested(s, direction, amount, key, now).Commit? <==>
      && s.status.Active? && s.linked && 0 < amount && s.cfg.minAmount <= amount <= s.cfg.maxPerTransfer
      && RoomFor(s, direction, amount, now)
    ensures Requested(s, direction, amount, key, now).Commit? ==>
      Requested(s, direction, amount, key, now).state ==
        s.(transfers := s.transfers + [Transfer(direction, amount, key, now, Pending, None, NoReason)])
  {
    hide SumOf, Where, FreeCash;
    var since := now - s.cfg.depositWindow;
    BuyingPowerIs(s);
    SumWhere(s.transfers, StandingDeposit(since), AmountAsked, CountsSince(since));
  }

  datatype VenueState = VenuePending | VenueSettled | VenueFailed

  /** The venue's view of one transfer. */
  datatype VenueTransfer = VenueTransfer(id: VenueId, direction: Direction, amount: Money, createdAt: int, state: VenueState)

  function WithState(s: State, id: TransferId, to: TransferState, reason: Reason): State
    requires id < |s.transfers|
  {
    s.(transfers := s.transfers[id := s.transfers[id].(state := to, reason := reason)])
  }

  /** The first transaction of applyVenueState: record the venue id on its own. */
  function VenueIdRecorded(s: State, id: TransferId, venueId: VenueId): Outcome<State> {
    if |s.transfers| <= id || s.transfers[id].venueId.Some? then Commit(s)
    else if VenueIdLinked(s.transfers, venueId) then Abort
    else Commit(s.(transfers := s.transfers[id := s.transfers[id].(venueId := Some(venueId))]))
  }

  /** settleLocked: exactly one signed ledger entry, and never below zero cash for a withdrawal. */
  function SettledLocked(s: State, id: TransferId): Outcome<State>
    requires id < |s.transfers|
  {
    var t := s.transfers[id];
    if !CanTransition(t.state, Settled) then Abort
    else if t.direction.Withdrawal? && s.cash < t.amount then Abort
    else if TransferPosted(s.ledger, id) then Abort
    else
      match Posted(s, Entry(if t.direction.Deposit? then DepositEntry else WithdrawalEntry, t.Signed(), ToTransfer(id)))
      case Abort => Abort
      case Commit(posted) => Commit(WithState(posted, id, Settled, t.reason))
  }

  /** The second transaction of applyVenueState. */
  function VenueStateApplied(s: State, id: TransferId, v: VenueTransfer): Outcome<State> {
    if |s.transfers| <= id then Abort
    else
      var t := s.transfers[id];
      if !t.state.Pending? then Commit(s)
      else if !s.status.Active? then
        Commit(WithState(s, id, Canceled, if v.state.VenueSettled? then SettledAnyway else ByInactive))
      else if v.direction != t.direction || v.amount != t.amount then Abort
      else if v.state.VenuePending? then Commit(s)
      else if v.state.VenueFailed? then Commit(WithState(s, id, Failed, ByVenue))
      else SettledLocked(s, id)
  }

  /** A row takes a venue id exactly while it has none; an id some row has is never given again. */
  lemma IdRecordedIff(s: State, id: TransferId, venueId: VenueId)
    requires id < |s.transfers|
    ensures var t, outcome := s.transfers[id], VenueIdRecorded(s, id, venueId);
      && (outcome.Abort? <==> t.venueId.None? && exists u <- s.transfers :: u.venueId == Some(venueId))
      && (outcome.Commit? ==>
           outcome.state == if t.venueId.Some? then s else s.(transfers := s.transfers[id := t.(venueId := Some(venueId))]))
  {
    if u :| u in s.transfers && u.venueId == Some(venueId) {
      var i :| 0 <= i < |s.transfers| && s.transfers[i] == u;
    }
  }

  method RecordVenueId(tx: Database, id: TransferId, venueId: VenueId) returns (ok: bool)
    modifies tx
    ensures ok <==> VenueIdRecorded(old(tx.Contents()), id, venueId).Commit?
    ensures tx.Contents() == if ok then VenueIdRecorded(old(tx.Contents()), id, venueId).state else old(tx.Contents())
  {
    if |tx.transfers| <= id || tx.transfers[id].venueId.Some? { return true; }
    if VenueIdLinked(tx.transfers, venueId) { return false; }
    tx.transfers := tx.transfers[id := tx.transfers[id].(venueId := Some(venueId))];
    return true;
  }

  method SettleLocked(tx: Database, id: TransferId) returns (ok: bool)
    requires id < |tx.transfers|
    modifies tx
    ensures ok <==> SettledLocked(old(tx.Contents()), id).Commit?
    ensures tx.Contents() == if ok then SettledLocked(old(tx.Contents()), id).state else old(tx.Contents())
  {
    var t := tx.transfers[id];
    if !CanTransition(t.state, Settled) { return false; }
    var amount := t.amount;
    if t.direction.Withdrawal? {
      if tx.cash < t.amount { return false; }
      amount := -t.amount;
    }
    if TransferPosted(tx.ledger, id) { return false; }
    ok := Post(tx, Entry(if t.direction.Deposit? then DepositEntry else WithdrawalEntry, amount, ToTransfer(id)));
    if ok {
      tx.transfers := tx.transfers[id := t.(state := Settled)];
    }
  }

  method ApplyVenueState(tx: Database, id: TransferId, v: VenueTransfer) returns (ok: bool)
    modifies tx
    ensures ok <==> VenueStateApplied(old(tx.Contents()), id, v).Commit?
    ensures tx.Contents() == if ok then VenueStateApplied(old(tx.Contents()), id, v).state else old(tx.Contents())
  {
    if |tx.transfers| <= id { return false; }
    var t := tx.transfers[id];
    if !t.state.Pending? { return true; }
    if !tx.status.Active? {
      var reason := if v.state.VenueSettled? then SettledAnyway else ByInactive;
      tx.transfers := tx.transfers[id := t.(state := Canceled, reason := reason)];
      return true;
    }
    if v.direction != t.direction || v.amount != t.amount { return false; }
    if v.state.VenuePending? { return true; }
    if v.state.VenueFailed? {
      tx.transfers := tx.transfers[id := t.(state := Failed, reason := ByVenue)];
      return true;
    }
    ok := SettleLocked(tx, id);
  }

  /** `finish`: PENDING to FAILED or CANCELED, no ledger effect. */
  function Finished(s: State, id: TransferId, to: TransferState): Outcome<State>
    requires to.Failed? || to.Canceled?
  {
    if |s.transfers| <= id then Abort
    else if !CanTransition(s.transfers[id].state, to) then Commit(s)
    else Commit(WithState(s, id, to, ByVenue))
  }

  method Finish(tx: Database, id: TransferId, to: TransferState) returns (ok: bool)
    requires to.Failed? || to.Canceled?
    modifies tx
    ensures ok <==> Finished(old(tx.Contents()), id, to).Commit?
    ensures tx.Contents() == if ok then Finished(old(tx.Contents()), id, to).state else old(tx.Contents())
  {
    if |tx.transfers| <= id { return false; }
    if CanTransition(tx.transfers[id].state, to) {
      tx.transfers := tx.transfers[id := tx.transfers[id].(state := to, reason := ByVenue)];
    }
    return true;
  }

  /** What the archive hook does to one row. */
  function CanceledByReset(t: Transfer): Transfer {
    if t.state.Pending? then t.(state := Canceled, reason := ByReset) else t
  }

  function IsPending(t: Transfer): int { if t.state.Pending? then 1 else 0 }

  lemma PendingSoFar(rows: seq<Transfer>, i: nat)
    requires i < |rows|
    ensures SumOf(rows[..i + 1], IsPending) == SumOf(rows[..i], IsPending) + IsPending(rows[i])
  {
    assert rows[..i + 1] == rows[..i] + [rows[i]];
    SumAppend(rows[..i], rows[i], IsPending);
  }

  /** cancelPendingForAccount: no hold outlives its account, and the count says how many there were. */
  method CancelPendingForAccount(tx: Database) returns (canceled: nat)
    modifies tx
    ensures canceled == SumOf(old(tx.transfers), IsPending)
    ensures tx.Contents() == old(tx.Contents()).(transfers :=
      seq(|old(tx.transfers)|, i requires 0 <= i < |old(tx.transfers)| => CanceledByReset(old(tx.transfers)[i])))
  {
    canceled := 0;
    var i := 0;
    while i < |tx.transfers|
      invariant i <= |tx.transfers| == |old(tx.transfers)|
      invariant canceled == SumOf(old(tx.transfers)[..i], IsPending)
      invariant tx.Contents() == old(tx.Contents()).(transfers := tx.transfers)
      invariant forall k | 0 <= k < |tx.transfers| ::
        tx.transfers[k] == if k < i then CanceledByReset(old(tx.transfers)[k]) else old(tx.transfers)[k]
    {
      PendingSoFar(old(tx.transfers), i);
      if tx.transfers[i].state.Pending? {
        tx.transfers := tx.transfers[i := tx.transfers[i].(state := Canceled, reason := ByReset)];
        canceled := canceled + 1;
      }
      i := i + 1;
    }
    assert old(tx.transfers)[..i] == old(tx.transfers);
  }

  /** watchCanceledByReset: stamp the row with what the venue finally did; money never moves. */
  function WatchStamped(s: State, id: TransferId, settled: bool): Outcome<State> {
    if |s.transfers| <= id || !s.transfers[id].state.Canceled? then Commit(s)
    else Commit(WithState(s, id, Canceled, if settled then SettledAnyway else ConfirmedNeverSettled))
  }

  method WatchCanceled(tx: Database, id: TransferId, settled: bool)
    modifies tx
    ensures WatchStamped(old(tx.Contents()), id, settled) == Commit(tx.Contents())
  {
    if id < |tx.transfers| && tx.transfers[id].state.Canceled? {
      var reason := if settled then SettledAnyway else ConfirmedNeverSettled;
      tx.transfers := tx.transfers[id := tx.transfers[id].(state := Canceled, reason := reason)];
    }
  }
}

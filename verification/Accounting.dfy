/** Position bookkeeping and the append-only ledger. */
module Accounting {
  import opened Wrappers
  import Sums
  import opened MoneyMath
  import opened OrderMachine
  import opened Rows

  /** applyBuyFill: fees capitalize into the basis. None where Basis.addMoney throws. */
  function BuyFill(current: Option<Position>, qty: nat, notional: Money, fee: Money): Option<Position> {
    var held := if current.Some? then current.value else Position(0, 0);
    var basis := held.basis + 100 * notional;
    if basis < 0 || basis + 100 * fee < 0 then None
    else Some(Position(held.qty + qty, basis + 100 * fee))
  }

  datatype Sale = Sale(position: Position, share: Money, realized: Money)

  /** applySellFill: average cost; None where it throws. */
  function SellFill(current: Option<Position>, qty: nat, proceeds: Money, fee: Money): Option<Sale> {
    if current.None? || current.value.qty < qty then None
    else
      match Allocate(current.value.basis, qty, current.value.qty)
      case None => None
      case Some(a) =>
        Some(Sale(Position(current.value.qty - qty, a.remaining), a.share, proceeds - fee - a.share))
  }

  function Lookup(positions: map<InstrumentId, Position>, instrument: InstrumentId): Option<Position> {
    if instrument in positions then Some(positions[instrument]) else None
  }

  /** LedgerService.post: append the entry and move the cached cash with it. */
  function Posted(s: State, e: Entry): Outcome<State> {
    if e.amount == 0 then Abort
    else Commit(s.(ledger := s.ledger + [e], cash := s.cash + e.amount))
  }

  /** The DB-unique ref of a CASH_TRANSFER entry. */
  predicate TransferPosted(ledger: seq<Entry>, id: TransferId) {
    exists i | 0 <= i < |ledger| :: ledger[i].ref == ToTransfer(id)
  }

  method Post(tx: Database, e: Entry) returns (ok: bool)
    modifies tx
    ensures ok <==> Posted(old(tx.Contents()), e).Commit?
    ensures tx.Contents() == if ok then Posted(old(tx.Contents()), e).state else old(tx.Contents())
  {
    if e.amount == 0 { return false; }
    tx.ledger := tx.ledger + [e];
    tx.cash := tx.cash + e.amount;
    return true;
  }

  datatype Drift = Drift(projected: Money, cached: Money, inBalance: bool)

  /** LedgerService.reconcile. */
  method Reconcile(tx: Database) returns (d: Drift)
    ensures d.projected == Sums.SumOf(tx.ledger, AmountOf) && d.cached == tx.cash
    ensures d.inBalance <==> tx.cash == Sums.SumOf(tx.ledger, AmountOf)
  {
    var projected, i := 0, 0;
    while i < |tx.ledger|
      invariant i <= |tx.ledger| && projected == Sums.SumOf(tx.ledger[..i], AmountOf)
    {
      Sums.SumAppend(tx.ledger[..i], tx.ledger[i], AmountOf);
      assert tx.ledger[..i + 1] == tx.ledger[..i] + [tx.ledger[i]];
      projected, i := projected + tx.ledger[i].amount, i + 1;
    }
    assert tx.ledger[..i] == tx.ledger;
    d := Drift(projected, tx.cash, tx.cash == projected);
  }
}

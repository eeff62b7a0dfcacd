/** Account lifecycle: provisioning, the opening deposit, archiving. */
module Accounts {
  import opened Wrappers
  import opened MoneyMath
  import opened Rows
  import opened Accounting
  import opened Transfers

  /** openPaperAccount after the venue account exists, or after provisioning threw. */
  function VenueLinked(s: State): State { s.(linked := true) }

  function ProvisionRefused(s: State): State { s.(status := ProvisioningFailed) }

  /**
   * The end of tryActivate for a poller the venue told `reported`: the status is checked again
   * under the account lock, so only the first of any number of pollers posts.
   */
  function Activated(s: State, reported: Money): Outcome<State> {
    if !s.linked || reported < s.startingCash || !s.status.Provisioning? then Commit(s)
    else Posted(s.(status := Active), Entry(DepositEntry, s.startingCash, ToAccount))
  }

  method TryActivate(tx: Database, reported: Money) returns (ok: bool)
    modifies tx
    ensures ok <==> Activated(old(tx.Contents()), reported).Commit?
    ensures tx.Contents() == if ok then Activated(old(tx.Contents()), reported).state else old(tx.Contents())
  {
    if !tx.status.Provisioning? || !tx.linked { return true; }
    if reported < tx.startingCash { return true; }
    var before := tx.Contents();
    tx.status := Active;
    ok := Post(tx, Entry(DepositEntry, tx.startingCash, ToAccount));
    if !ok { tx.Rollback(before); }
  }

  /** The archive transaction: every PENDING transfer is canceled before the status changes. */
  function ArchivedNow(s: State): Outcome<State> {
    if !s.status.Active? then Abort
    else Commit(s.(status := Archived,
      transfers := seq(|s.transfers|, i requires 0 <= i < |s.transfers| => CanceledByReset(s.transfers[i]))))
  }

  method Archive(tx: Database) returns (ok: bool)
    modifies tx
    ensures ok <==> ArchivedNow(old(tx.Contents())).Commit?
    ensures tx.Contents() == if ok then ArchivedNow(old(tx.Contents())).state else old(tx.Contents())
  {
    if !tx.status.Active? { return false; }
    var canceled := CancelPendingForAccount(tx);
    tx.status := Archived;
    return true;
  }

  /**
   * A poller opens the account exactly when it is provisioning, linked and reported to hold the
   * starting cash; archiving an ACTIVE account cancels what is PENDING and changes nothing else.
   */
  lemma OpensAndCloses(s: State, reported: Money)
    requires 0 < s.startingCash
    ensures Activated(s, reported) == Commit(
      if s.status.Provisioning? && s.linked && s.startingCash <= reported then
        s.(status := Active, cash := s.cash + s.startingCash,
           ledger := s.ledger + [Entry(DepositEntry, s.startingCash, ToAccount)])
      else s)
    ensures ArchivedNow(s).Commit? <==> s.status.Active?
    ensures ArchivedNow(s).Commit? ==>
      var next := ArchivedNow(s).state;
      && next == s.(status := Archived, transfers := next.transfers) && |next.transfers| == |s.transfers|
      && forall i | 0 <= i < |s.transfers| :: var t := s.transfers[i];
           next.transfers[i] == if t.state.Pending? then t.(state := Canceled, reason := ByReset) else t
  {
  }

  /** An account fresh from opening: failed, waiting for funds, or active with its one deposit. */
  ghost predicate Opened(s: State, startingCash: Money, provisioned: bool, reported: Money) {
    var funded := provisioned && startingCash <= reported;
    && s == State(s.cfg, startingCash, s.openedAt, s.status, provisioned, s.cash, s.ledger, [], [], [], map[], [])
    && s.status == (if !provisioned then ProvisioningFailed else if funded then Active else Provisioning)
    && s.ledger == (if funded then [Entry(DepositEntry, startingCash, ToAccount)] else [])
    && s.cash == if funded then startingCash else 0
  }

  /** openPaperAccount: create, provision at the venue, link, and activate if it is funded already. */
  method OpenPaperAccount(cfg: Config, startingCash: Money, openedAt: int, provisioned: bool, reported: Money)
    returns (account: Option<Database>)
    ensures account.Some? <==> 0 < startingCash
    ensures account.Some? ==> fresh(account.value) && Opened(account.value.Contents(), startingCash, provisioned, reported)
  {
    if startingCash <= 0 { return None; }
    var tx := new Database(cfg, startingCash, openedAt);
    if !provisioned {
      tx.status := ProvisioningFailed;
      return Some(tx);
    }
    tx.linked := true;
    var ok := TryActivate(tx, reported);
    return Some(tx);
  }

  /** archiveAndReprovision: nothing of the old account moves but its status and its pending transfers. */
  method ArchiveAndReprovision(tx: Database, openedAt: int, provisioned: bool, reported: Money)
    returns (account: Option<Database>)
    requires 0 < tx.startingCash
    modifies tx
    ensures account.Some? <==> old(tx.status).Active?
    ensures account.None? ==> tx.Contents() == old(tx.Contents())
    ensures account.Some? ==>
      && ArchivedNow(old(tx.Contents())) == Commit(tx.Contents())
      && account.value != tx && fresh(account.value)
      && Opened(account.value.Contents(), tx.startingCash, provisioned, reported)
  {
    var archived := Archive(tx);
    if !archived { return None; }
    account := OpenPaperAccount(tx.cfg, tx.startingCash, openedAt, provisioned, reported);
  }
}

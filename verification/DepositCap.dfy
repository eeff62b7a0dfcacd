/** The deposit cap holds over every trailing window of every run. */
module DepositCap {
  import opened Wrappers
  import opened Sums
  import opened MoneyMath
  import opened OrderMachine
  import opened Rows
  import opened Accounting
  import opened Orders
  import opened ExecutionService
  import opened Transfers
  import opened Accounts
  import opened Engine
  import opened Conservation

  /** Deposits that stand (PENDING or SETTLED) and were created within [from, to]. */
  function CountsIn(from: int, to: int): Transfer -> Money {
    (t: Transfer) =>
      if t.direction.Deposit? && (t.state.Pending? || t.state.Settled?) && from <= t.createdAt <= to then t.amount else 0
  }

  /** What was deposited in the window that ends at `at`, the opening deposit included. */
  function InWindow(s: State, at: int): Money {
    var from := at - s.cfg.depositWindow;
    SumOf(s.transfers, CountsIn(from, at)) + if from <= s.openedAt <= at then s.startingCash else 0
  }

  ghost predicate Capped(s: State) {
    forall at: int :: InWindow(s, at) <= s.cfg.depositCap
  }

  /** A window that ends later than `now` sees no more of the old deposits than the request did. */
  lemma LaterWindowSeesLess(s: State, now: int, at: int)
    requires Inv(s) && now <= at
    ensures InWindow(s, at) <= DepositedInWindow(s, now)
  {
    var window := s.cfg.depositWindow;
    forall i | 0 <= i < |s.transfers|
      ensures CountsIn(at - window, at)(s.transfers[i]) <= CountsSince(now - window)(s.transfers[i])
    {
      assert 0 < s.transfers[i].amount;
    }
    SumAtMost(s.transfers, CountsIn(at - window, at), s.transfers, CountsSince(now - window));
  }

  lemma OneMoreInWindow(s: State, row: Transfer, at: int)
    ensures InWindow(s.(transfers := s.transfers + [row]), at) ==
            InWindow(s, at) + CountsIn(at - s.cfg.depositWindow, at)(row)
  {
    hide SumOf, CountsIn;
    SumAppend(s.transfers, row, CountsIn(at - s.cfg.depositWindow, at));
  }

  lemma RequestCapped(s: State, direction: Direction, amount: Money, key: Key, now: int)
    requires Inv(s) && Capped(s) && Requested(s, direction, amount, key, now).Commit?
    ensures Capped(Requested(s, direction, amount, key, now).state)
  {
    hide Inv, InWindow, WithKey, DepositedInWindow, FreeCash;
    var next := Requested(s, direction, amount, key, now).state;
    if next != s {
      var row := Transfer(direction, amount, key, now, Pending, None, NoReason);
      forall at: int ensures InWindow(next, at) <= s.cfg.depositCap {
        OneMoreInWindow(s, row, at);
        assert InWindow(s, at) <= s.cfg.depositCap;
        assert CountsIn(at - s.cfg.depositWindow, at)(row) <= if now <= at && direction.Deposit? then amount else 0;
        if now <= at { LaterWindowSeesLess(s, now, at); }
      }
    }
  }

  /** No other step makes a deposit stand that did not stand before. */
  lemma OthersCapped(s: State, a: Action)
    requires Inv(s) && Capped(s) && !a.RequestTransfer?
    ensures Capped(Next(s, a))
  {
    hide Inv, Effect, SumOf;
    var next := Next(s, a);
    TransfersOnlyFade(s, a);
    forall at: int ensures InWindow(next, at) <= s.cfg.depositCap {
      var from := at - s.cfg.depositWindow;
      SumAtMost(next.transfers, CountsIn(from, at), s.transfers, CountsIn(from, at));
      assert InWindow(s, at) <= s.cfg.depositCap;
    }
  }

  lemma TransfersOnlyFade(s: State, a: Action)
    requires Inv(s) && !a.RequestTransfer?
    ensures var next := Next(s, a);
      && next.cfg == s.cfg && next.openedAt == s.openedAt && next.startingCash == s.startingCash
      && |next.transfers| == |s.transfers|
      && forall i, from: int, to: int | 0 <= i < |s.transfers| ::
           CountsIn(from, to)(next.transfers[i]) <= CountsIn(from, to)(s.transfers[i])
  {
    ConfigStays(s, a);
    NoneRequested(s, a);
    forall i, from: int, to: int | 0 <= i < |s.transfers|
      ensures CountsIn(from, to)(Next(s, a).transfers[i]) <= CountsIn(from, to)(s.transfers[i])
    {
      TransferTerminalAbsorbs(s, a, i);
      assert 0 < s.transfers[i].amount;
      hide Inv, Next;
    }
  }

  lemma NoneRequested(s: State, a: Action)
    requires !a.RequestTransfer?
    ensures |Next(s, a).transfers| == |s.transfers|
  {
    hide EventApplied, CancelRequested, SubmissionGivenUp, Placed, VenueIdLinked, TransferPosted;
    if OnOrders(a) { OrdersApart(s, a); }
  }

  /**
   * In every run of an account whose opening cash is within the cap, every trailing window holds
   * at most the cap in standing deposits, although the cap is checked only when one is requested.
   */
  lemma {:induction false} DepositCapHolds(s: State, actions: seq<Action>)
    requires Initial(s) && s.startingCash <= s.cfg.depositCap
    ensures Capped(Run(s, actions))
  {
    if actions == [] {
      forall at: int ensures InWindow(s, at) <= s.cfg.depositCap {}
    } else {
      var before, a := actions[..|actions| - 1], actions[|actions| - 1];
      DepositCapHolds(s, before);
      EveryRun(s, before);
      match a
      case RequestTransfer(direction, amount, key, now) =>
        if Requested(Run(s, before), direction, amount, key, now).Commit? {
          RequestCapped(Run(s, before), direction, amount, key, now);
        }
      case _ => OthersCapped(Run(s, before), a);
    }
  }
}

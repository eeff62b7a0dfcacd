# Paper-brokerage money engine

A model, in Dafny 4.11, of the part of the paper brokerage that moves money: orders and their
reservations, executions, the ledger, positions, cash transfers, account opening and reset,
reconciliation, the deterministic venue, the net-worth series, and the browser's own arithmetic.
`dafny verify dfyconfig.toml` checks all of it.

## How it is built

- **Money** (`Money.dfy`). Amounts are integer cents, prices positive ten-thousandths, quantities
  naturals, a cost basis ten-thousandths. Each derivation rounds once, half to even.
- **The tables** (`Rows.dfy`). `State` is the contents of one account's tables as a value.
  `Database` is the mutable store a transaction works on.
- **Transactions** (`Orders`, `ExecutionService`, `Transfers`, `TransferSync`, `Accounts`,
  `Accounting`). Each transaction body is an imperative method on the `Database`, proved to commit
  exactly what a function of the old contents says, or to leave no trace when it throws.
- **The engine** (`Engine.dfy`). Those functions are the steps of one transition system. A run is
  any sequence of steps, those that throw included; every interleaving of requests, pollers, sweeps,
  venue events, crashes and resets is such a sequence, because every step runs under the account lock.
- **Whole-run results.** `Conservation`, `OrderRecord`, `SellSafety`, `BuyingPower` and `DepositCap`
  prove invariants of every run; `Delivery` adds the stream worker and its cursor, `Reconciliation`,
  `AccountReconciliation` and `AccountConvergence` the REST fallback, `Portfolio` and `PortfolioView`
  the summary page.
- **Concrete runs.** `LateFills`, `PageRuns`, `StuckOrder` and `OverlappingPasses` exhibit what goes
  wrong, from an opening or an empty protocol state.
- **Two parties.** `LostAnswers` puts the venue beside the account: its answers may be lost, late or
  repeated, and any number of sync passes run side by side. `SyncProtocol` shows that the sync pass
  takes only the acts it allows.
- **In the rows themselves.** The functions that specify the transactions are in turn pinned by
  statements that do not use them, over states, events, rows and figures: `OrderMachine.WhoTakesWhat`,
  `Orders.TransitionSays`, `Orders.NewOrderIff`, `EventEffects.EventCommitsIff`,
  `Transfers.NewTransferIff`, `Conservation.VenueViewDecides`, `TransferSync.LostIdDecided`,
  `EquityPoints.SeriesInFull`. Sums there run over a selection of rows (`Sums.Where`), as the
  repositories' queries do.
- **Specifications met by loops.** `DeterministicVenue` (its log is a legal run of the order
  machine), `EquitySeries` (two pointers against prefix sums), `Browser` and `Decimals` (BigInt on
  decimal strings against the server's integers), `Activities` (execution ids).

The stores' unique constraints are part of the steps: a step that would break one throws.

## What the proofs found

- **Recovery of a lost transfer id can go wrong in exactly three writes.** A pass decides about a row
  it loaded earlier; its decision, to link a venue transfer or to fail the row, is right if and only if
  the row is still unlinked and, for linking it, still PENDING (`LostAnswers.PickIsRightIff`,
  `LostAnswers.GivingUpIsRightIff`; src/core/cash-transfers/service.ts:566-599 do not look again). A
  decision gone stale does harm only if it is then written: an id recorded on a row it does not belong
  to, a row ended by another transfer's view, or a linked PENDING row failed while its venue transfer
  may still settle. `LostAnswers.LostAnswerSafety` holds in every run without such a write, each such
  write breaks the invariant (`LostAnswers.StepKeepsIff`) and leads to an unsafe account
  (`LostAnswers.CarelessIsUnsafe`), and three looks under the locks the transactions already take would
  rule all of them out (`LostAnswers.GuardedRunsAreSafe`).
  `OverlappingPasses.OverlappingPassesOverspend` is a run of the code as it is: the cash page polls
  while the worker sweeps, and the account ends with more to spend than the venue holds.
- **One cheap share hides the portfolio page.** The page divides basis by quantity into a price, and a
  price may not be zero (src/core/portfolio/portfolio.ts:117, src/core/money/money.ts:296-299).
  `PortfolioView.View` throws if and only if the replay is stuck, more of a holding is promised away than
  is held, or a holding cost at most half a ten-thousandth of a dollar a share. The last needs neither
  late nor disordered fills: buy three shares at 0.0034, sell two, and one is held at no cost
  (`PageRuns.CheapShareHidesThePage`).
- **The page's realized P&L is not the one booked.** It replays fills by execution time
  (src/infra/db/repositories/fills.ts:73), while positions were moved in the order fills were applied,
  and a reconciliation pass walks the newest order first. The two agree where each instrument's fills
  were booked as they executed (`Portfolio.ChronologyAgrees`); `PageRuns.PageRealizesDifferently` is a
  run where they do not, 50.00 against 16.67. Cash, positions and equity are explained to the cent by
  the booked figure in every run (`PortfolioView.NetWorthExplained`).
- **Reconciliation has one case in which it does not converge**, and only one: the venue says
  "filled" and every execution had already been booked as a partial fill
  (`Reconciliation.ConvergesIff`). Two passes get there from any run in which the activities are
  complete before the order's status is (`Reconciliation.EveryRunSticks`; `StuckOrder.OrderSticks`
  is one), and the order then stays open with its whole quantity filled.
- **A failed lookup counts as "no such order"**, although the comment above it says an order is
  failed only when the venue provably never received it (src/core/execution/execution.ts:77-80,
  119-137). A late fill is therefore reachable (`LateFills.LateFillHappens`). Filled quantities stay
  exact if and only if there is none (`OrderRecord.ExactIffNoneLate`); money is conserved either way.
- **The deposit cap needs no monotone clock**: `DepositCap.DepositCapHolds` lets request times come
  in any order.
- `SellSafety`, `BuyingPower`, `PortfolioView.ViewThrowsIff` and `Reconciliation.EveryRunConverges`
  assume that no new execution reaches a terminal order (`OrderRecord.NoLateFills`, and in
  `BuyingPower.Plain` the same for each step).

## Assumptions of the two-party protocol

`LostAnswers.Enabled` states them, one per step: the venue creates a row's transfer within the
recovery window or never, stamps it within the window, under an id of its own, and does not forget
it; a settled or failed venue transfer stays so; a refusal is final; no request is made while another
row with the same direction and amount still waits for its venue id; a pass whose listing is older
than the grace period less the window decides nothing; a complete listing holds every transfer it
reaches; the account is ACTIVE and does not trade.

## Model

| member | source | states |
|---|---|---|
| `MoneyMath.HalfEven` | src/core/money/money.ts:19 | the rounding every derivation applies once: the nearest integer, ties to the even one (roundTiesToEven in section 4.3.1 of IEEE 754-2019) |
| `MoneyMath.HalfEvenUnique` | src/core/money/money.ts:19 | that rounding rule leaves exactly one answer, so two implementations that obey it agree |
| `MoneyMath.HalfEvenMonotone` | src/core/money/money.ts:19 | rounding never reorders amounts |
| `MoneyMath.HalfEvenOdd` | src/core/money/money.ts:19 | a debit rounds like the credit of the same size |
| `MoneyMath.HalfEvenScale` | src/core/money/money.ts:19 | a common factor of price, quantity and scale never changes a rounded amount |
| `MoneyMath.Notional` | src/core/money/money.ts:319-323 | the cash value of a fill is non-negative and within half a cent of price times quantity, ties to even |
| `MoneyMath.ReserveWithBuffer` | src/core/money/money.ts:346-355 | the market-BUY reservation is the buffered cost rounded once |
| `MoneyMath.BufferCoversNotional` | src/core/money/money.ts:346-355 | a market BUY never reserves less than the order costs at the reference price, rounding included |
| `MoneyMath.ScaledReservation` | src/core/orders/service.ts:331-334 | the scaled reservation is within half a cent of pro rata, whichever way an exact tie falls after the 40-digit division |
| `MoneyMath.ScaledBySame` | src/core/orders/service.ts:331-334 | scaling by an unchanged remainder gives the reservation back exactly |
| `MoneyMath.Allocate` | src/core/money/money.ts:274-293 | what a sale allocates plus what stays is the basis it started from; a full close leaves nothing |
| `MoneyMath.AllocateWholeCents` | src/core/money/money.ts:274-293 | on a whole-cent basis the negative-remainder guard never fires and the share is within half a cent of pro rata |
| `MoneyMath.AllocateCanRefuseSubCents` | src/core/money/money.ts:285-291 | without whole cents the guard can fire: a concrete basis and partial sale |
| `MoneyMath.AvgPx` | src/core/money/money.ts:296-299 | the average cost of a holding is its basis over its quantity rounded once, and refused exactly when the basis is at most half a unit per share |
| `MoneyMath.PriceDelta` | src/core/money/money.ts:331-340 | cents and hundredths of a percent of a price move, each rounded once |
| `OrderMachine.PlanIsLegal` | src/core/orders/state-machine.ts:99-128 | a plan is a chain of legal edges from the current state to the event's target, that target is also one legal edge away, and planning throws exactly when there is no such edge and the event is no echo |
| `OrderMachine.TerminalAdmitsNothing` | src/core/orders/state-machine.ts:24-68 | no event leads out of a terminal state |
| `OrderMachine.NextReservation` | src/core/orders/service.ts:322-335 | after a fill a reservation is within half a cent of pro rata to the open remainder; it is zero for sells, for terminal orders and when nothing is left, unchanged before any fill, and never negative |
| `OrderMachine.AdvanceKeepsOrder` | src/core/orders/service.ts:217-284 | an accepted event keeps the record sound, adds exactly its own fill, follows one edge of the table or none, and leaves a terminal order as it is |
| `OrderMachine.WhoTakesWhat` | src/core/orders/state-machine.ts:24-128 | over states and events: an order takes exactly the events that may come at its stage and have room in its quantity, and ends where they say; an echo changes nothing, what reaches a terminal order or is unknown leaves an audit row, the rest throws |
| `OrderMachine.InferredAcceptance` | src/core/orders/state-machine.ts:113-121 | a fill that finds the order PENDING_SUBMISSION or ACKNOWLEDGED infers one acceptance, from that state; nothing else infers any |
| `Rows.Database.constructor` | src/core/accounts/accounts.ts:106 | a created account is PROVISIONING with empty tables |
| `Accounting.Post` | src/core/ledger/ledger.ts:68-74 | an entry and the cached cash move together; a zero amount is refused |
| `Accounting.Reconcile` | src/core/ledger/ledger.ts:76-82 | drift is exactly a difference between cached cash and the ledger's sum |
| `Orders.Place` | src/core/orders/service.ts:117-183 | placement commits what the reservation checks under the lock allow, and otherwise leaves every table alone, as it does when the key is known |
| `Orders.ReservationIs` | src/core/orders/service.ts:312-319 | a new market BUY sets aside refPrice * qty * (1 + ratio) rounded half to even, so never less than its notional, a limit BUY limit * qty rounded, a SELL nothing; there is no figure exactly for a market BUY without a reference price or below a ratio of one |
| `Orders.NewOrderIff` | src/core/orders/service.ts:117-183 | a new order is accepted if and only if it is presentable and that figure fits cash less what open buys reserve and pending withdrawals ask for, or its shares fit what open sells have not promised; its row holds back exactly that |
| `Rows.BuyingPowerIs` | src/core/orders/service.ts:142-155 | buying power is cash less the reservations of the open buys less the amounts of the pending withdrawals, each summed over the rows selected |
| `Rows.PromisedIs` | src/core/orders/service.ts:156-167 | the shares open sells promise are the remainders of the open sell rows of the instrument |
| `Orders.RecordSteps` | src/core/orders/service.ts:246-262 | the walk over the planned steps writes one inferred audit row per inferred step and ends in the last step's state |
| `Orders.MoveOrder` | src/core/orders/service.ts:246-285 | steps, quantity guards and order row together, or the throw |
| `Orders.ApplyTransition` | src/core/orders/service.ts:185-285 | replay check, plan, audit row, inferred rows and order row: the whole new contents of the tables, or which of throw and duplicate it was |
| `Orders.TransitionSays` | src/core/orders/service.ts:185-285 | over states and events: a new envelope moves the order exactly when the order takes the event, leaves one audit row of its own and the inferred acceptance where a fill overtook it, flags what cannot apply, and throws exactly when the event is refused |
| `Orders.RequestCancel` | src/core/orders/service.ts:292-310 | the local cancel intent as one transaction that commits or leaves no trace |
| `Orders.CancelIntentSticks` | src/core/orders/service.ts:292-310 | a cancel intent is refused only while the order is PENDING_SUBMISSION; a working order ends CANCEL_PENDING with its fills and reservation intact |
| `ExecutionService.PostTrade` | src/core/execution/execution.ts:250-279 | a fill posts its TRADE entry, and a FEE entry exactly when there is a fee |
| `ExecutionService.ApplyFillEffects` | src/core/execution/execution.ts:213-280 | fills row, position and ledger entries of one execution, or the throw |
| `ExecutionService.OnBrokerEvent` | src/core/execution/execution.ts:164-210 | one event moves order, fill, ledger, position and cash together or leaves no trace |
| `EventEffects.EventCommitsIff` | src/core/execution/execution.ts:164-280 | a broker event commits if and only if it names an order, a fill brings its execution, and it is known already or neither refused nor unbookable; the tables then are spelled out, the fills row, ledger entries, cash and position of an execution to the cent |
| `EventEffects.EffectsIff` | src/core/execution/execution.ts:213-280 | an execution is booked exactly when it is new, moves shares and cash, and sells only what is held; a sale takes its part of the basis within half a cent of pro rata |
| `ExecutionService.GiveUpSubmission` | src/core/execution/execution.ts:119-137 | the SUBMIT_FAILED transaction; a failed lookup counts as no such order |
| `ExecutionService.GivingUpIff` | src/core/execution/execution.ts:119-137 | giving up throws exactly for an order that has meanwhile begun to work; one still PENDING_SUBMISSION fails and releases its cash, one already terminal keeps its state |
| `ExecutionService.Submit` | src/core/execution/execution.ts:82-143 | after two failed sends and an empty lookup the order is given up in the tables as the events that arrived meanwhile left them; every other ending changes nothing of its own |
| `Transfers.Request` | src/core/cash-transfers/service.ts:271-322 | a request commits a PENDING row exactly when the rules allow it; a known key changes nothing and answers only the same request |
| `Transfers.NewTransferIff` | src/core/cash-transfers/service.ts:271-322 | a new request is accepted if and only if the account is ACTIVE and linked, the amount positive and within the limits, and it fits: a deposit what pending and settled deposit rows of the window and the opening cash leave of the cap, a withdrawal the free cash |
| `Transfers.RecordVenueId` | src/core/cash-transfers/service.ts:609-619 | the venue id is committed on its own, at most once per row and per id |
| `Transfers.IdRecordedIff` | src/core/cash-transfers/service.ts:609-619 | a row takes a venue id exactly while it has none, and an id some row has is never given again |
| `Transfers.SettleLocked` | src/core/cash-transfers/service.ts:673-699 | settling posts one signed entry and never takes cash below zero |
| `Transfers.ApplyVenueState` | src/core/cash-transfers/service.ts:620-670 | the venue's state applied under the locks: whole new contents or the throw |
| `Transfers.Finish` | src/core/cash-transfers/service.ts:702-716 | only a PENDING row is finished, without a ledger effect |
| `Transfers.CancelPendingForAccount` | src/core/cash-transfers/service.ts:517-530 | every PENDING row of the account is canceled, no other row moves, and the count is how many there were |
| `TransferSync.Candidates` | src/core/cash-transfers/service.ts:566-579 | the matching venue transfers and no others, closest in time first |
| `TransferSync.Pick` | src/core/cash-transfers/service.ts:566-587 | the closest matching transfer no row is linked to, or none because there is none |
| `TransferSync.SyncOne` | src/core/cash-transfers/service.ts:538-600 | every way one PENDING row can be handled, as one of the outcomes the lemmas below decide between |
| `TransferSync.LostIdDecided` | src/core/cash-transfers/service.ts:563-600 | a row with a lost id stays as it is until its age exceeds the grace; then it fails for want of a transfer if and only if the listing is complete and every transfer it could be is linked, takes the nearest unlinked one if and only if there is one, and else waits |
| `TransferSync.LinkedDecided` | src/core/cash-transfers/service.ts:546-562 | a row with its venue id takes the venue's record of it; without one it fails once its age exceeds the grace, and a lookup that throws changes nothing |
| `TransferSync.UnlinkedDecided` | src/core/cash-transfers/service.ts:538-545 | a row of an account without a venue account fails once its age exceeds the grace, and is left alone before |
| `SyncProtocol.SyncIsAllowed` | src/core/cash-transfers/service.ts:538-716 | every transaction by which one row is handled is at most three acts of the two-party protocol, each enabled when it is taken, and they keep its invariant |
| `TransferSync.SyncedMovesOneRow` | src/core/cash-transfers/service.ts:538-670 | whatever the venue answers, only that row moves, cash moves by what it settled, and the answer is the row's new state |
| `TransferSync.WatchCanceledByReset` | src/core/cash-transfers/service.ts:455-501 | exactly the canceled rows of the last seven days the venue has decided are stamped, once, with what it did; no money moves, and the counters are how many it settled anyway and how many lookups failed |
| `TransferSync.WatchSays` | src/core/cash-transfers/service.ts:455-501 | a row is stamped exactly when a reset or an inactive account canceled it within seven days and the venue has settled or failed its transfer, with which of the two it was |
| `TransferSync.SyncPending` | src/core/cash-transfers/service.ts:351-392 | each PENDING row is handled once, in order, from the tables the row before it left; the counters are the rows checked, settled, failed and thrown, a failed listing is one more error, and cash moves by exactly what settled |
| `Accounts.TryActivate` | src/core/accounts/accounts.ts:126-153 | the DEPOSIT posts only while PROVISIONING and only against sufficient reported cash |
| `Accounts.Archive` | src/core/accounts/accounts.ts:192-210 | archiving cancels every pending transfer in the same transaction |
| `Accounts.OpenPaperAccount` | src/core/accounts/accounts.ts:100-118 | a new account is failed, waiting, or active with exactly its one opening deposit |
| `Accounts.ArchiveAndReprovision` | src/core/accounts/accounts.ts:192-212 | a reset archives only an ACTIVE account and opens a separate fresh one with the same starting cash |
| `Accounts.OpensAndCloses` | src/core/accounts/accounts.ts:126-210 | a poller opens the account exactly when it is PROVISIONING, linked and reported to hold the starting cash; archiving cancels exactly the PENDING transfers of an ACTIVE account |
| `Engine.StepsInFull` | src/core/execution/execution.ts:186-209 | every transaction that touches an order row, spelled out table by table: one audit row, at most one fill, its position and its ledger entries |
| `Engine.OtherStepsInFull` | src/core/orders/service.ts:117-183 | every other transaction leaves audit, fills and positions alone and at most appends one order |
| `Engine.OpeningIsARun` | src/core/accounts/accounts.ts:100-118 | what opening an account leaves behind is a state the engine reaches |
| `Conservation.EveryRun` | src/core/ledger/ledger.ts:68-81 | the money invariant holds in every state of every interleaving of transactions |
| `Conservation.ExactConservation` | src/core/execution/execution.ts:213-280 | cached cash is the ledger's sum and, to the cent, opening deposit plus settled transfers plus realized P&L less open cost basis, late fills included |
| `Conservation.AllocationNeverRefuses` | src/core/money/money.ts:262-293 | in every reachable state each basis is whole cents, so no partial sale of held shares is refused and each share is within half a cent of pro rata |
| `Conservation.BasisNeverDrifts` | src/core/portfolio/positions.ts:36-67 | what the basis holds is what was bought, fees included, less what sales were allocated; a closed position was allocated all of it |
| `Conservation.UniqueIndexNeverFires` | src/infra/db/schema.ts:228-232 | a PENDING transfer has no CASH_TRANSFER entry yet, so the unique index is never what stops a settlement |
| `Conservation.OneLedgerEffectPerTransfer` | src/core/cash-transfers/service.ts:673-699 | exactly one signed CASH_TRANSFER entry per SETTLED transfer, none per other transfer, in every run; an archived account has no PENDING one |
| `Conservation.VenueViewDecides` | src/core/cash-transfers/service.ts:620-699 | in every reachable state the venue's view of a PENDING row decides it in full: settled rows settle with one entry and their cash, unless the view is of another transfer, the account inactive or a withdrawal exceeds the cash |
| `Conservation.TransferTerminalAbsorbs` | src/core/cash-transfers/rules.ts:131-133 | no step leaves a terminal transfer state, changes what was requested, or changes a recorded venue id |
| `Conservation.WithdrawalNeverOverdraws` | src/core/cash-transfers/service.ts:680-690 | a step that settles a withdrawal takes exactly its amount and leaves cash at zero or more |
| `Conservation.OpeningDepositOnce` | src/core/accounts/accounts.ts:126-153 | in every run one opening DEPOSIT equal to the starting cash once ACTIVE or ARCHIVED, none before |
| `Conservation.OpeningWaitsForFunds` | src/core/accounts/accounts.ts:134-135 | no opening deposit before some poller was told the venue holds at least the starting cash |
| `Portfolio.RealizedPnl` | src/core/portfolio/portfolio.ts:70-89 | over the fills in execution-time order, ties as inserted, the replay loop returns the realized total, or throws exactly where the replay is stuck |
| `StableSort.SortedStable` | src/infra/db/repositories/fills.ts:55-73 | rows with the same time stay in the order they were inserted |
| `Portfolio.ReplayIsBookkeeping` | src/core/portfolio/portfolio.ts:70-89 | replaying the fills and booking them one by one are the same computation: same throws, same positions, same sum of per-sale P&L |
| `Portfolio.ChronologyAgrees` | src/infra/db/repositories/fills.ts:55-73 | where the fills of each instrument were booked in execution-time order, replaying all of them by execution time and replaying them as booked realize the same total and leave the same positions |
| `PortfolioView.ViewPositions` | src/core/portfolio/portfolio.ts:108-127 | every held position is shown, sellable plus promised shares its quantity, average cost the half-even average, value less gain its basis in cents, and the values add up; it throws only on one that cannot be shown |
| `PortfolioView.View` | src/core/portfolio/portfolio.ts:91-143 | the rows so shown, equity, buying power as cash less the rows' reservations and pending withdrawals, and realized P&L; with every quote there the gains shown are those of the holdings; it throws if and only if the replay is stuck or some holding is overpromised or cost at most half a ten-thousandth of a dollar a share |
| `PortfolioView.ShownAddUp` | src/core/portfolio/portfolio.ts:108-141 | the gains on the rows add up to the gains by which NetWorthExplained explains equity, and the values to the positions' value |
| `PortfolioView.NetWorthExplained` | src/core/portfolio/portfolio.ts:129-141 | in every run equity is what was paid in and settled plus the P&L booked fill by fill plus unrealized gains, to the cent, and the page's own realized figure is that P&L where each instrument was booked as it executed |
| `PortfolioView.ViewThrowsIff` | src/core/portfolio/portfolio.ts:108-127 | in every run without late fills in which each instrument was booked as it executed, the page throws if and only if some holding cost at most half a ten-thousandth of a dollar a share |
| `PageRuns.CheapShareHidesThePage` | src/core/portfolio/portfolio.ts:117 | a concrete run without late or disordered fills after which one share is held at no cost and the page throws |
| `PageRuns.PageRealizesDifferently` | src/infra/db/repositories/fills.ts:73 | a concrete run of two orders applied against execution time: booked fill by fill it realizes 50.00, replayed by the page 16.67 |
| `OrderRecord.EveryRecord` | src/core/orders/service.ts:185-285 | in every run each order's non-inferred audit rows chain legally from PENDING_SUBMISSION to its state, its record is sound, and without late fills its filled quantity is exactly what its booked executions add up to |
| `OrderRecord.EveryStage` | src/core/orders/state-machine.ts:24-128 | in every run an order before its first fill has nothing filled, one PARTIALLY_FILLED or FILLED has, and no two fills rows share an execution |
| `OrderRecord.RejectedBeforeAnyFill` | src/core/orders/state-machine.ts:24-68 | in every run an open order takes ORDER_REJECTED if and only if nothing is filled and no cancel is on its way |
| `OrderRecord.EveryKeyOnce` | src/infra/db/schema.ts:357-367 | in every run an idempotency key names one order and one transfer at most, so a retried request never makes a second |
| `OrderRecord.ExactIffNotLate` | src/core/orders/service.ts:217-244 | from a state where filled quantities are exact, a step keeps them exact if and only if it is not a new execution reaching a terminal order |
| `OrderRecord.ExactIffNoneLate` | src/core/orders/service.ts:217-244 | over a whole run from an opening, filled quantities are exact at the end if and only if no execution ever reached a terminal order |
| `OrderRecord.OrderTerminalAbsorbs` | src/core/orders/state-machine.ts:53-68 | no step changes a terminal order but its attention flag |
| `LateFills.LateFillHappens` | src/core/execution/execution.ts:119-137 | a concrete run: a failed lookup gives an order up, its fill arrives, and the account pays for and holds a share of an order with nothing filled |
| `SellSafety.EveryRunCovered` | src/core/orders/service.ts:156-167 | without late fills the shares promised by open sells never exceed the shares held, in any run |
| `SellSafety.SellGuardNeverFires` | src/core/portfolio/positions.ts:51-67 | so a sell fill an open order has room for is never refused by the position bookkeeping |
| `BuyingPower.ScaledDrift` | src/core/orders/service.ts:331-334 | one scaling of a reservation adds at most half a cent to its distance from the exact price of the remainder |
| `BuyingPower.BuyingPowerBound` | src/core/orders/service.ts:142-155 | in every run of limit-priced fee-free buys, cash less reservations less withdrawal holds stays above minus one cent per BUY order placed and BUY fill applied |
| `DepositCap.DepositCapHolds` | src/core/cash-transfers/service.ts:296-305 | for every time in every run the pending and settled deposit rows created in the trailing window, and the opening cash if it falls there, add up to at most the cap |
| `Delivery.RedeliveryInvisible` | src/core/execution/execution.ts:171-209 | delivering a committed event again, anywhere later and with anything in between, changes no run |
| `Delivery.SameExecutionOnce` | src/core/execution/execution.ts:176-180 | one venue execution books once, whatever envelope it comes in next |
| `Delivery.ExactlyOnce` | src/worker/main.ts:50-66 | after any schedule of deliveries, redeliveries, crashes, restarts and other transactions, everything up to the persisted cursor is applied, and the database is what one history gives that holds each reached event once, in log order, and of other transactions exactly the schedule's, in theirs |
| `Delivery.TailAddsTheRest` | src/worker/main.ts:50-66 | after any such schedule, delivering the tail from the persisted cursor adds exactly the events not reached yet, each once |
| `Delivery.TailFromCursor` | src/worker/main.ts:50-66 | without other writers, delivering the tail from the cursor ends exactly where one clean pass over the log ends |
| `Delivery.Ingestion.OnEvent` | src/worker/main.ts:57-65 | the cursor is overwritten only after the event committed |
| `Delivery.Ingestion.Consume` | src/worker/main.ts:55-66 | a connection applies a prefix of its events and stops at the first that throws |
| `Reconciliation.OrderFillsAreAll` | src/infra/brokers/alpaca/translate.ts:149-151 | exactly the order's activities, each as often as listed, in transaction-time order |
| `Reconciliation.EventsFromSnapshot` | src/infra/brokers/alpaca/translate.ts:143-201 | the events a snapshot replays as, or the refusal when fills are not visible |
| `Reconciliation.RefusedIff` | src/infra/brokers/alpaca/translate.ts:153-161 | a snapshot is refused exactly when the order's activities add up to fewer shares than it says are filled, and the pass then throws with nothing changed |
| `Reconciliation.QuietSnapshot` | src/infra/brokers/alpaca/translate.ts:187-201 | a first snapshot without executions takes the order where its status says the venue has it if the order takes that event, throws exactly if it refuses it, and changes nothing where the status says nothing or dates from before a cancel on its way |
| `Reconciliation.ReplayEvents` | src/core/reconciliation/reconciliation.ts:192-202 | each event is its own transaction and the first to throw ends the pass |
| `Reconciliation.ReconcileOrder` | src/core/reconciliation/reconciliation.ts:166-204 | one order's pass, as the listing saw it; a cancel is re-sent if and only if the order was listed and still is CANCEL_PENDING, the venue answered, nothing threw, and it has been unchanged for a minute |
| `Reconciliation.LabelsKept` | src/infra/brokers/alpaca/translate.ts:176 | a reconciliation envelope is recorded only together with the execution it names, at every step |
| `Reconciliation.PassBooksMissing` | src/core/reconciliation/reconciliation.ts:166-204 | one pass over a fresh terminal snapshot never throws and books exactly the missing executions, each once |
| `Reconciliation.ConvergesIff` | src/core/reconciliation/reconciliation.ts:166-204 | that pass ends the order as the venue did if and only if it is not so that the venue says filled and nothing was missing |
| `Reconciliation.EveryRunConverges` | src/core/reconciliation/reconciliation.ts:166-204 | both, from every state reachable without late fills, for any order whose booked executions are a prefix of the venue's |
| `Reconciliation.EarlyActivitiesStick` | src/infra/brokers/alpaca/translate.ts:160-201 | how the stuck case arises: activities complete while the status still says partially filled, then a filled status; the order stays open with its whole quantity filled |
| `Reconciliation.EveryRunSticks` | src/infra/brokers/alpaca/translate.ts:160-201 | the same from every state reachable without late fills: a pass over a partially filled snapshot that shows every execution, then any number over filled ones, leave the order open with its whole quantity filled |
| `StuckOrder.OrderSticks` | src/infra/brokers/alpaca/translate.ts:160-201 | a concrete run and two passes that end so |
| `AccountReconciliation.OpenOrders` | src/infra/db/repositories/orders.ts:93-105 | the listing holds open orders only, each in its state, as many as there are but at most the limit; an open order it misses is older than every one it holds |
| `AccountReconciliation.ReconcileAccount` | src/core/reconciliation/reconciliation.ts:158-225 | a pass over the hundred newest open orders as listed at its start; the cancels re-sent are counted, the orders checked end at the first that throws, and it reports healthy exactly when nothing threw and cash equals the ledger |
| `AccountConvergence.ListedConverges` | src/core/reconciliation/reconciliation.ts:166-204 | a pass that does not throw books for every listed order the venue knows each of its executions once, and ends it as the venue did save in the stuck case |
| `AccountConvergence.EveryPassConverges` | src/core/reconciliation/reconciliation.ts:158-204 | the same from every state reachable without late fills, for the listing the pass takes |
| `AccountConvergence.PassTouches` | src/core/reconciliation/reconciliation.ts:166-204 | a pass touches the orders it lists, books the executions their snapshots bring and records their envelopes, and no other |
| `AccountConvergence.OthersLeftAlone` | src/core/reconciliation/reconciliation.ts:158-204 | every order the pass does not list is left as it was, its fills too |
| `AccountConvergence.ListedUnknown` | src/core/reconciliation/reconciliation.ts:170-189 | an order the venue has no record of is given up exactly if it was PENDING_SUBMISSION for over a minute, and else left as it was |
| `AccountConvergence.CancelsSentAgain` | src/core/reconciliation/reconciliation.ts:134-156 | a pass that does not throw sends one cancel again for each order it leaves CANCEL_PENDING that was listed so, is known to the venue and has been unchanged for over a minute |
| `AccountReconciliation.AccountPassIsARun` | src/core/reconciliation/reconciliation.ts:158-204 | a pass takes no step the engine does not have |
| `AccountReconciliation.DriftNeverDetected` | src/core/reconciliation/reconciliation.ts:206-225 | whatever the venue answers, a pass from a reachable state never finds drift |
| `Activities.StreamFormIff` | src/infra/brokers/alpaca/translate.ts:121-125 | an activity id yields the stream's execution id exactly when that id neither starts with a colon nor holds a separator |
| `DeterministicVenue.LogRefinesMachine` | src/core/brokers/deterministic/deterministic-broker.ts:273-325 | every order's log is accepted event by event by the order machine; its fills add up, ORDER_FILLED comes last, once, and only with the full quantity |
| `DeterministicVenue.FollowedLog` | src/core/brokers/deterministic/deterministic-broker.ts:431-453 | in any accepted log the fills sum to the filled quantity and nothing follows ORDER_FILLED |
| `DeterministicVenue.RestPrice` | src/core/brokers/deterministic/deterministic-broker.ts:411-429 | a resting order is only ever taken at its limit or better |
| `DeterministicVenue.RestPriceIs` | src/core/brokers/deterministic/deterministic-broker.ts:411-429 | it is taken exactly when the market trades and the side of the quote it trades against is at its limit or better, and at that price |
| `DeterministicVenue.MarketPriceIs` | src/core/brokers/deterministic/deterministic-broker.ts:401-409 | a market order trades at that side of the quote moved against it by the slippage and rounded once, never better than the quote |
| `DeterministicVenue.Venue.constructor` | src/core/brokers/deterministic/deterministic-broker.ts:100-106 | a new venue has an empty log |
| `DeterministicVenue.Venue.Emit` | src/core/brokers/deterministic/deterministic-broker.ts:455-485 | one more event the followed order takes, under a fresh id; every other order's log is untouched |
| `DeterministicVenue.Venue.EmitFills` | src/core/brokers/deterministic/deterministic-broker.ts:435-452 | the chunk loop ends with the whole quantity filled: pieces of the chunk size at one price for the flat fee each, the last an ORDER_FILLED of no more than a chunk |
| `DeterministicVenue.Venue.Fill` | src/core/brokers/deterministic/deterministic-broker.ts:431-453 | a working order is filled whole in such pieces, at a price within its limit, and stops resting |
| `DeterministicVenue.Venue.EvaluateResting` | src/core/brokers/deterministic/deterministic-broker.ts:411-429 | a limit order fills, whole and at the quote, if and only if the market has reached its limit |
| `DeterministicVenue.Venue.Tick` | src/core/brokers/deterministic/deterministic-broker.ts:386-391 | exactly the orders the market has reached fill, whole and at the quote, and stop resting; no other order's log or record changes |
| `DeterministicVenue.Venue.Submit` | src/core/brokers/deterministic/deterministic-broker.ts:273-309 | a duplicate submission changes nothing; a fresh one logs exactly what the provider's answers determine: acknowledged, then rejected, or accepted and perhaps filled whole at the price they give |
| `DeterministicVenue.Venue.Cancel` | src/core/brokers/deterministic/deterministic-broker.ts:311-325 | a cancel is accepted exactly while the order rests, and then logs CANCEL_PENDING and CANCELLED and nothing else |
| `DeterministicVenue.Venue.ExpireDayOrders` | src/core/brokers/deterministic/deterministic-broker.ts:393-399 | exactly the orders that had not ended log ORDER_EXPIRED, once, and then none works; every other log is untouched |
| `EquitySeries.InvolvedSymbols` | src/core/portfolio/equity-series.ts:240-257 | exactly the symbols held at the window start or traded inside the window; it throws exactly on a history that goes short |
| `EquitySeries.HeldIsInvolved` | src/core/portfolio/equity-series.ts:240-257 | whatever is held at any later time is a symbol whose candles were fetched |
| `EquitySeries.AdvanceLedger` | src/core/portfolio/equity-series.ts:184-192 | the ledger pointer stands exactly between the entries before and after the cutoff, with their prefix sums |
| `EquitySeries.AdvanceBook` | src/core/portfolio/equity-series.ts:193-198 | the fill pointer likewise, and the book holds each symbol's net shares |
| `EquitySeries.ValueBook` | src/core/portfolio/equity-series.ts:200-211 | the point's value is cash plus the sum over held symbols, or a held symbol has no price |
| `EquitySeries.OnePoint` | src/core/portfolio/equity-series.ts:183-217 | one grid point equals its prefix-sum specification on either kind of grid: cash and net deposits before its end, and each holding at the close known there |
| `EquitySeries.KnownIsLatestBar` | src/core/portfolio/equity-series.ts:155-216 | on a grid of bars the close the walk carries forward is always that of the symbol's latest bar |
| `EquitySeries.Walk` | src/core/portfolio/equity-series.ts:174-218 | so does every point of the single ascending walk; it fails only on an unreplayable history or an unpriced holding |
| `EquitySeries.ChooseGrid` | src/core/portfolio/equity-series.ts:126-153 | the grid is the bar starts in the window, or failing those the ledger's timestamps, strictly ascending |
| `EquitySeries.GridIsUnique` | src/core/portfolio/equity-series.ts:126-153 | there is only one such grid, so the history is determined by the input |
| `EquitySeries.SeriesIsUnique` | src/core/portfolio/equity-series.ts:104-238 | the specification leaves exactly one series |
| `EquitySeries.PercentChange` | src/core/money/money.ts:123-127 | the change of the series is undefined exactly for a base that is not positive |
| `EquitySeries.Compute` | src/core/portfolio/equity-series.ts:104-238 | it fails if and only if the fills go short, a needed symbol has no candles or a holding has no known close at some grid point; otherwise it is the specified series, strictly ascending and ending live at now |
| `EquityPoints.SeriesInFull` | src/core/portfolio/equity-series.ts:104-238 | the series over its rows: the grid is the bars that end in the window or else the ledger's timestamps, each point is cash by its end plus bought less sold shares at the last usable close rounded once, net deposits count external entries by then, and the change runs from the first point to now |
| `EquityPoints.FailsIff` | src/core/portfolio/equity-series.ts:104-238 | it fails if and only if some prefix of the fills sells more than it bought, a symbol that needs one has no candles, or something is held at a drawn point with no usable bar |
| `Decimals.RenderThenRead` | src/lib/chart-format.ts:33-39 | reading back what was written is exact for every integer and number of places, the sign included |
| `Decimals.ReadThenRender` | src/lib/chart-format.ts:13-21 | writing what was read gives back every canonical string |
| `Decimals.RenderIsCanonical` | src/lib/chart-format.ts:33-39 | what is written is canonical: no spare zeros, no negative zero |
| `Decimals.FittedParses` | src/lib/order-ticket.ts:64-67 | short fractions read like their zero-padded forms |
| `Decimals.DecimalRead` | src/lib/chart-format.ts:13-21 | a decimal is read as its digits say, zeros added or digits cut off at the last place, never rounded |
| `Browser.CentsRoundTrip` | src/lib/cash-transfer.ts:14-26 | toCents and centsToString undo each other, both ways round |
| `Browser.AddThenSubtract` | src/lib/cash-transfer.ts:29-36 | adding is exact, and subtracting again gives back the very string |
| `Browser.PercentNeverExceeds` | src/lib/cash-transfer.ts:39-43 | a percentage is the exact one rounded down and never exceeds its base |
| `Browser.EstimateIsNotional` | src/lib/order-ticket.ts:73-79 | the ticket's estimate is the server's notional for every spelling of the price |
| `Browser.ReserveIsReserve` | src/lib/order-ticket.ts:87-98 | the ticket's hold is the server's reservation, however the buffer ratio is spelt |
| `Browser.DivIsHalfEven` | src/lib/chart-format.ts:23-31 | the BigInt division is half-even for all four sign combinations |
| `Browser.ChangeIsPriceDelta` | src/lib/chart-format.ts:50-62 | the chart's readout is the server's price move digit for digit, its arrow the move's sign |
| `Browser.ParseAmount` | src/lib/cash-transfer.ts:62-66 | commas and surrounding blanks are taken out; an accepted amount comes out canonical and not negative |
| `Browser.AmountRead` | src/lib/cash-transfer.ts:62-66 | an amount typed with commas and surrounding blanks is read for exactly what its digits say |
| `Browser.OnlyAmountsRead` | src/lib/cash-transfer.ts:62-66 | and nothing else is read |
| `Browser.RulesSay` | src/core/cash-transfers/service.ts:238-262 | what the sheet is told is the cap less the window's deposit rows and the cash less the rows' reservations and withdrawals, never below zero |
| `Browser.SheetMirrorsServer` | src/lib/cash-transfer.ts:82-115 | the transfer sheet lets an amount through exactly when the server's rules would; from an account that is not ACTIVE no withdrawal gets through |
| `LostAnswers.PickIsRightIff` | src/core/cash-transfers/service.ts:566-588 | the transfer a pass picks for a row with a lost id is the row's own if and only if the row is still PENDING and unlinked at that moment |
| `LostAnswers.GivingUpIsRightIff` | src/core/cash-transfers/service.ts:589-599 | a pass that finds no candidate is right that the venue has and will have nothing for the row if and only if the row is still unlinked at that moment |
| `LostAnswers.StepKeeps` | src/core/cash-transfers/service.ts:538-716 | every careful step of the two-party protocol keeps its invariant; careless are only three writes: recording an id that is not the row's own, ending a row otherwise than its own venue transfer ended, failing a linked PENDING row whose venue transfer has not failed |
| `LostAnswers.StepKeepsIff` | src/core/cash-transfers/service.ts:609-716 | a step keeps the invariant if and only if it is careful |
| `LostAnswers.LostAnswerSafety` | src/core/cash-transfers/service.ts:202-230 | over all interleavings of requests, lost and late answers, crashes and overlapping passes whose steps are careful: linked ids are the rows' own, SETTLED rows match SETTLED venue transfers, FAILED ones never move money, and cash less pending withdrawals never exceeds venue cash |
| `LostAnswers.CarelessIsUnsafe` | src/core/cash-transfers/service.ts:609-716 | and no weaker condition would do: after any careless step the account is unsafe at once or when the venue settles that one transfer |
| `LostAnswers.GuardedRunsAreSafe` | src/core/cash-transfers/service.ts:609-716 | three looks the transactions could take under their locks make every run safe: record an id only while PENDING, apply a view only under the id recorded, fail only an unlinked row |
| `LostAnswers.WrongLinkLosesATransfer` | src/core/cash-transfers/service.ts:589-619 | a wrong link costs money: an ordinary pass then fails the row whose id was taken, and the venue settles it |
| `OverlappingPasses.OverlappingPassesOverspend` | src/core/cash-transfers/service.ts:580-599 | a concrete run of two passes, each visiting the row once, that ends with more to spend than the venue holds |

## Left out

- Several accounts, users and brokers: the model is one account at one broker, so the per-account loops of the sweeps (src/core/cash-transfers/service.ts:395-404, src/core/accounts/accounts.ts:156-175, src/core/reconciliation/reconciliation.ts:69-97) appear as one account's pass.
- Database ids, `brokerOrderId`, `rejectReason`, `settledAt`, descriptions and raw payloads: rows are numbered by insertion, and such columns are written but never read by the rules. Of the timestamps a transfer's creation time and an execution's venue time are kept; `createdAt`, which breaks ties between execution times and orders the listing of open orders, is the insertion order.
- decimal.js precision: values are unbounded integers, not 40 significant digits, and column widths (`NUMERIC(18,2)`, 64-bit quantities) never overflow.
- MoneyMath.ScaledReservation: an exact tie of the divide-first scaling may fall either way, chosen by a flag of the execution, because which way depends on the 40-digit quotient.
- MoneyMath.PriceDelta: rounds the exact quotient; the source divides at 40 digits first, which differs for no price below 10^30.
- Operator ADJUSTMENT entries: the ledger has deposits, withdrawals, trades and fees only.
- Market BUY fills in BuyingPower: a market order may fill above what was reserved, so the bound speaks of runs in which buys fill at or below their limit without a fee.
- The venue's random or vendor-specific behaviour, HTTP, stream parsing, retries and timeouts: the venue's answers are parameters of the steps, and a lost answer is a step that does not happen.
- Orders.Place: the account is given, so looking it up by user and the 404 for an unknown instrument are absent; `tradable` is an input.
- ExecutionService.Submit: whether each send got through, what the lookup found and which events arrive meanwhile are parameters; of the transactions in between only the stream's are shown, the others being `Engine.GiveUp` in an arbitrary run.
- Reconciliation.ReconcileOrder: whether the re-sent cancel is accepted is the venue's business, and sending it does not throw; the method only says when one is sent.
- AccountReconciliation.ReconcileAccount: nothing runs between one order's replay and the next; that other steps may is `Reconciliation.EveryRunConverges`, which starts from any reachable state. The counters of replayed events and failed submissions are not kept, and the status written before and after the pass is the result's health.
- AccountConvergence.ListedConverges: the venue's answer for an order is of that order, and names no execution as another listed order's; how an order ends is said for the statuses filled, canceled, expired and done for day, that its executions are booked for every status.
- EquitySeries.Compute: candles are fetched one symbol after the other, and the fetch itself never throws.
- resolveAllRange and the bar tables of src/core/portfolio/equity-series.ts:57-90: constants choosing a range; `Compute` holds for every bar length and lookback.
- TransferSync.SyncOne: nothing runs between recording the id and applying the view; `LostAnswers` has them as separate steps that anything may come between.
- TransferSync.SyncPending: one pass without anything in between; interleaved passes are `LostAnswers`. Loading the rows and the transactions themselves fail only as the model says, never for want of a database.
- TransferSync.WatchCanceledByReset: failure reasons are tags, not texts; the two that append a suffix are one tag.
- LostAnswers.Enabled: archived accounts and trading are outside the two-party protocol, and what it asks of the venue is listed above.
- DeterministicVenue.Venue.Emit: the listeners an event is handed to, and what happens when one throws, are not part of the log's contract.
- DeterministicVenue.Venue: test switches (muted events, forced failures), subscriptions, snapshots and its own cash transfers; the provider's answers are parameters, and a provider that throws shows as a missing answer.
- Decimals.ReadSigned: strings outside the decimal grammar (signs in the middle, blanks, exponents), which BigInt may still accept, read as nothing.
- Price alerts, job leases, rankings, quote caches, calendars and time zones, authentication and the user interface: they move no money.

/**
 * Two sync passes of one account (the cash page polls while the worker sweeps) may load the same
 * row with a lost id. The first links it; the second finds the venue's transfer taken, by the very
 * row it belongs to, and fails the row. When the venue then settles the withdrawal, the account
 * may spend money the venue no longer holds.
 */
module OverlappingPasses {
  import opened Wrappers
  import opened Sums
  import opened MoneyMath
  import opened OrderMachine
  import opened Rows
  import opened Transfers
  import opened Recovery
  import opened LostAnswers

  const SETUP := Setup(600000, 1000, 1000)

  const FRESH := State(Config(Ratio(0, 1), 1, 500, 500, 0), 1000, 0, Active, true, 1000, [], [], [], [], map[], [])

  function Row(venueId: Option<VenueId>, state: TransferState, reason: Reason): Transfer {
    Transfer(Withdrawal, 100, 0, 0, state, venueId, reason)
  }

  function AtVenue(state: VenueState): VenueTransfer { VenueTransfer(7, Withdrawal, 100, 0, state) }

  function Loaded(listing: Option<Listing>): Pass { Pass([Row(None, Pending, NoReason)], listing) }

  const SEEN := AtVenue(VenuePending)

  /** The page's pass lists first, the worker's a millisecond later. */
  const EARLY := Listing(600001, {SEEN}, true)
  const LATE := Listing(600002, {SEEN}, true)
  const PAGE := Loaded(Some(EARLY))
  const WORKER := Loaded(Some(LATE))

  /** The account with its one withdrawal row, and what the venue has of it. */
  function Holding(row: Transfer, at: Option<VenueTransfer>, now: int, passes: set<Pass>, intents: set<Intent>): World {
    World(now, FRESH.(transfers := [row]), [at], {}, passes, intents)
  }

  const FIRST := {Loaded(None), PAGE}
  const BOTH := {Loaded(None), PAGE, WORKER}
  const LINKING := {Report(0, SEEN)}
  const DECIDED := {Report(0, SEEN), GiveUp(0)}

  const START := World(0, FRESH, [], {}, {}, {})

  const REQUESTED := [Ask(Withdrawal, 100, 0), VenueCreates(0, 7, 0), Tick(600001)]
  const PAGE_LOADED := [Load, List(Loaded(None), EARLY)]
  const WORKER_LOADED := [Load, Tick(1), List(Loaded(None), LATE)]
  const PAGE_LINKED := [Recover(PAGE, 0, Some(SEEN)), RecordId(0, SEEN), ApplyState(0, SEEN)]
  const WORKER_FAILED := [Recover(WORKER, 0, None), Act.Finish(0), VenueEnds(0, true)]

  const WAITING := Row(None, Pending, NoReason)
  const RECOVERED := Row(Some(7), Pending, NoReason)

  lemma PlayTwo(c: Setup, w: World, a: Act, b: Act)
    ensures Play(c, w, [a, b]) == After(c, After(c, w, a), b)
  {
    hide After;
    StepThenPlay(c, w, a, [b]);
    StepThenPlay(c, After(c, w, a), b, []);
    assert [a] + [b] == [a, b] && [b] + [] == [b];
  }

  lemma PlayThree(c: Setup, w: World, a: Act, b: Act, d: Act)
    ensures Play(c, w, [a, b, d]) == After(c, After(c, After(c, w, a), b), d)
  {
    hide After;
    StepThenPlay(c, w, a, [b, d]);
    PlayTwo(c, After(c, w, a), b, d);
    assert [a] + [b, d] == [a, b, d];
  }

  lemma Asking()
    ensures After(SETUP, START, REQUESTED[0]) == Holding(WAITING, None, 0, {}, {})
  {
    hide WithKey, ListingOf, IsPick;
    assert [] + [WAITING] == [WAITING];
  }

  lemma Creating(asked: World)
    requires asked == Holding(WAITING, None, 0, {}, {})
    ensures After(SETUP, asked, REQUESTED[1]) == Holding(WAITING, Some(SEEN), 0, {}, {})
  {
    assert [None][0 := Some(SEEN)] == [Some(SEEN)];
  }

  lemma Requesting()
    ensures Play(SETUP, START, REQUESTED) == Holding(WAITING, Some(SEEN), 600001, {}, {})
  {
    PlayThree(SETUP, START, REQUESTED[0], REQUESTED[1], REQUESTED[2]);
    hide Play, WithKey;
    Asking();
    Creating(Holding(WAITING, None, 0, {}, {}));
  }

  lemma PageLoading()
    ensures Play(SETUP, Holding(WAITING, Some(SEEN), 600001, {}, {}), PAGE_LOADED) ==
            Holding(WAITING, Some(SEEN), 600001, FIRST, {})
  {
    hide Play;
    var w := Holding(WAITING, Some(SEEN), 600001, {}, {});
    PlayTwo(SETUP, w, PAGE_LOADED[0], PAGE_LOADED[1]);
    var loaded := After(SETUP, w, Load);
    assert loaded == w.(passes := {Loaded(None)});
    assert ListingOf(Loaded(None).rows, w.venue, EARLY);
  }

  lemma WorkerLoading()
    ensures Play(SETUP, Holding(WAITING, Some(SEEN), 600001, FIRST, {}), WORKER_LOADED) ==
            Holding(WAITING, Some(SEEN), 600002, BOTH, {})
  {
    hide Play;
    var w := Holding(WAITING, Some(SEEN), 600001, FIRST, {});
    PlayThree(SETUP, w, WORKER_LOADED[0], WORKER_LOADED[1], WORKER_LOADED[2]);
    var loaded := After(SETUP, w, Load);
    assert loaded == w;
    assert ListingOf(Loaded(None).rows, w.venue, LATE);
  }

  lemma PageLinking()
    ensures Play(SETUP, Holding(WAITING, Some(SEEN), 600002, BOTH, {}), PAGE_LINKED) ==
            Holding(RECOVERED, Some(SEEN), 600002, BOTH, LINKING)
  {
    hide Play;
    var w := Holding(WAITING, Some(SEEN), 600002, BOTH, {});
    PlayThree(SETUP, w, PAGE_LINKED[0], PAGE_LINKED[1], PAGE_LINKED[2]);
    assert !VenueIdLinked(w.s.transfers, 7);
    assert IsPick(WAITING, {SEEN}, w.s.transfers, Some(SEEN));
    var known := After(SETUP, w, PAGE_LINKED[0]);
    assert known == w.(intents := LINKING);
    var recorded := After(SETUP, known, PAGE_LINKED[1]);
    assert recorded == Holding(RECOVERED, Some(SEEN), 600002, BOTH, LINKING);
  }

  lemma WorkerFailing()
    ensures Play(SETUP, Holding(RECOVERED, Some(SEEN), 600002, BOTH, LINKING), WORKER_FAILED) ==
            Holding(Row(Some(7), Failed, ByVenue), Some(AtVenue(VenueSettled)), 600002, BOTH, DECIDED)
  {
    hide Play;
    var w := Holding(RECOVERED, Some(SEEN), 600002, BOTH, LINKING);
    PlayThree(SETUP, w, WORKER_FAILED[0], WORKER_FAILED[1], WORKER_FAILED[2]);
    assert w.s.transfers[0].venueId == Some(7);
    assert IsPick(WAITING, {SEEN}, w.s.transfers, None);
    var decided := After(SETUP, w, WORKER_FAILED[0]);
    assert decided == w.(intents := DECIDED);
    var failed := After(SETUP, decided, WORKER_FAILED[1]);
    assert failed == Holding(Row(Some(7), Failed, ByVenue), Some(SEEN), 600002, BOTH, DECIDED);
  }

  lemma Figures(row: Transfer, v: Option<VenueTransfer>)
    ensures SumOf([row], WithdrawalHold) == WithdrawalHold(row) && SumOf([v], VenueEffect) == VenueEffect(v)
  {
  }

  /**
   * Two passes, each visiting the row once: every assumption on the venue, the clock and the passes
   * is kept, and still 100 cents too many are spendable.
   */
  lemma OverlappingPassesOverspend()
    ensures SETUP.Valid() && Start(SETUP, START) && PAGE != WORKER
    ensures var end := Play(SETUP, START, REQUESTED + PAGE_LOADED + WORKER_LOADED + PAGE_LINKED + WORKER_FAILED);
      end.s.cash - SumOf(end.s.transfers, WithdrawalHold) == VenueCash(SETUP, end) + 100
  {
    hide Play, After, Enabled;
    PlayConcat(SETUP, START, REQUESTED + PAGE_LOADED + WORKER_LOADED + PAGE_LINKED, WORKER_FAILED);
    PlayConcat(SETUP, START, REQUESTED + PAGE_LOADED + WORKER_LOADED, PAGE_LINKED);
    PlayConcat(SETUP, START, REQUESTED + PAGE_LOADED, WORKER_LOADED);
    PlayConcat(SETUP, START, REQUESTED, PAGE_LOADED);
    Requesting();
    PageLoading();
    WorkerLoading();
    PageLinking();
    WorkerFailing();
    Figures(Row(Some(7), Failed, ByVenue), Some(AtVenue(VenueSettled)));
  }
}

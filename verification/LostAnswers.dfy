/**
 * Cash transfers as a two-party protocol. The venue keeps its own transfers; its answers may be
 * lost, late or repeated; any number of sync passes run side by side and may crash anywhere.
 * Every local transaction is the engine's; everything between two of them interleaves freely.
 */
module LostAnswers {
  import opened Wrappers
  import opened Sums
  import opened MoneyMath
  import opened OrderMachine
  import opened Rows
  import opened Transfers
  import opened Accounting
  import opened Conservation
  import opened Recovery

  /** The grace window, the account's cash at the start, and what the venue then held for it. */
  datatype Setup = Setup(grace: nat, opening: Money, base: Money)
  {
    /** The service refuses to be built with a grace window within the recovery window. */
    ghost predicate Valid() { WINDOW < grace && opening <= base }
  }

  /** One sync pass: the rows it loaded, and later the venue listing it took. */
  datatype Pass = Pass(rows: seq<Transfer>, listing: Option<Listing>)

  /** A decision or an answer on its way to the account's transactions. */
  datatype Intent = Report(row: TransferId, view: VenueTransfer) | GiveUp(row: TransferId)

  datatype World = World(now: int, s: State, venue: seq<Option<VenueTransfer>>, refused: set<TransferId>,
                         passes: set<Pass>, intents: set<Intent>)

  datatype Act =
    | Tick(ms: nat)
    | Ask(direction: Direction, amount: Money, key: Key)
    | VenueCreates(row: TransferId, id: VenueId, stamp: int)
    | VenueEnds(row: TransferId, settled: bool)
    | VenueRefuses(row: TransferId)
    | Answer(row: TransferId)
    | Load
    | List(pass: Pass, listing: Listing)
    | ReadListed(pass: Pass, row: TransferId, view: VenueTransfer)
    | Recover(pass: Pass, row: TransferId, pick: Option<VenueTransfer>)
    | RecordId(row: TransferId, view: VenueTransfer)
    | ApplyState(row: TransferId, view: VenueTransfer)
    | Finish(row: TransferId)

  // ---- the steps ----

  predicate Unlinked(t: Transfer) { t.state.Pending? && t.venueId.None? }

  predicate Alike(a: Transfer, b: Transfer) { a.direction == b.direction && a.amount == b.amount }

  /** A row whose answer is still missing has this direction and amount. */
  predicate Ambiguous(rows: seq<Transfer>, direction: Direction, amount: Money) {
    exists i | 0 <= i < |rows| :: Unlinked(rows[i]) && rows[i].direction == direction && rows[i].amount == amount
  }

  ghost predicate IdTaken(venue: seq<Option<VenueTransfer>>, id: VenueId) {
    exists i | 0 <= i < |venue| :: venue[i].Some? && venue[i].value.id == id
  }

  /** The listing starts one window before the oldest PENDING row the pass loaded. */
  ghost predicate Reaches(rows: seq<Transfer>, stamp: int) {
    exists i | 0 <= i < |rows| :: rows[i].state.Pending? && rows[i].createdAt - WINDOW <= stamp
  }

  ghost predicate ListingOf(rows: seq<Transfer>, venue: seq<Option<VenueTransfer>>, listing: Listing) {
    && (forall c <- listing.entries :: Some(c) in venue)
    && (listing.complete ==>
         forall i | 0 <= i < |venue| && venue[i].Some? && Reaches(rows, venue[i].value.createdAt) ::
           venue[i].value in listing.entries)
  }

  /** When a step may happen; everything the venue and the clock are assumed to respect is here. */
  ghost predicate Enabled(c: Setup, w: World, a: Act) {
    var rows := w.s.transfers;
    match a
    case Tick(_) => true
    case Ask(direction, amount, _) => !Ambiguous(rows, direction, amount)
    // Within the recovery window or never, stamped within it, once per row, under a new id.
    case VenueCreates(i, id, stamp) =>
      && i < |rows| && i < |w.venue| && w.venue[i].None? && i !in w.refused && !IdTaken(w.venue, id)
      && w.now <= rows[i].createdAt + WINDOW
      && rows[i].createdAt - WINDOW <= stamp <= rows[i].createdAt + WINDOW
    case VenueEnds(i, _) => i < |w.venue| && w.venue[i].Some? && w.venue[i].value.state.VenuePending?
    case VenueRefuses(i) => i < |w.venue| && w.venue[i].None?
    // The answer to the initiating call, or a lookup by id: the venue does not forget.
    case Answer(i) => i < |w.venue| && w.venue[i].Some?
    case Load => true
    case List(p, listing) => p in w.passes && p.listing.None? && listing.at == w.now && ListingOf(p.rows, w.venue, listing)
    case ReadListed(p, i, view) =>
      && p in w.passes && i < |p.rows| && p.rows[i].venueId == Some(view.id)
      && p.listing.Some? && view in p.listing.value.entries
    // A pass whose listing is older than this has been abandoned.
    case Recover(p, i, pick) =>
      && p in w.passes && i < |p.rows| && Unlinked(p.rows[i]) && p.listing.Some?
      && c.grace < w.now - p.rows[i].createdAt
      && w.now - p.listing.value.at <= c.grace - WINDOW
      && IsPick(p.rows[i], p.listing.value.entries, rows, pick)
      && (pick.None? ==> p.listing.value.complete)
    case RecordId(i, view) => Report(i, view) in w.intents
    case ApplyState(i, view) => Report(i, view) in w.intents && i < |rows| && rows[i].venueId.Some?
    case Finish(i) => GiveUp(i) in w.intents
  }

  function Ended(v: VenueTransfer, settled: bool): VenueTransfer {
    v.(state := if settled then VenueSettled else VenueFailed)
  }

  function Asked(w: World, direction: Direction, amount: Money, key: Key): World {
    var next := Committed(w.s, Requested(w.s, direction, amount, key, w.now));
    w.(s := next, venue := if |next.transfers| == |w.s.transfers| then w.venue else w.venue + [None])
  }

  ghost function After(c: Setup, w: World, a: Act): World {
    if !Enabled(c, w, a) then w
    else match a
      case Tick(ms) => w.(now := w.now + ms)
      case Ask(direction, amount, key) => Asked(w, direction, amount, key)
      case VenueCreates(i, id, stamp) =>
        var t := w.s.transfers[i];
        w.(venue := w.venue[i := Some(VenueTransfer(id, t.direction, t.amount, stamp, VenuePending))])
      case VenueEnds(i, settled) => w.(venue := w.venue[i := Some(Ended(w.venue[i].value, settled))])
      case VenueRefuses(i) => w.(refused := w.refused + {i}, intents := w.intents + {GiveUp(i)})
      case Answer(i) => w.(intents := w.intents + {Report(i, w.venue[i].value)})
      case Load => w.(passes := w.passes + {Pass(w.s.transfers, None)})
      case List(p, listing) => w.(passes := w.passes + {p.(listing := Some(listing))})
      case ReadListed(_, i, view) => w.(intents := w.intents + {Report(i, view)})
      case Recover(_, i, pick) =>
        w.(intents := w.intents + {if pick.Some? then Report(i, pick.value) else GiveUp(i)})
      case RecordId(i, view) => w.(s := Committed(w.s, VenueIdRecorded(w.s, i, view.id)))
      case ApplyState(i, view) => w.(s := Committed(w.s, VenueStateApplied(w.s, i, view)))
      case Finish(i) => w.(s := Committed(w.s, Finished(w.s, i, Failed)))
  }

  ghost function Play(c: Setup, w: World, acts: seq<Act>): World {
    if acts == [] then w else After(c, Play(c, w, acts[..|acts| - 1]), acts[|acts| - 1])
  }

  /** The account has just opened: nothing requested yet, and the venue holds at least its cash. */
  ghost predicate Start(c: Setup, w: World) {
    && w.s.status.Active? && w.s.transfers == [] && w.s.cash == c.opening
    && w.venue == [] && w.refused == {} && w.passes == {} && w.intents == {}
  }

  // ---- what a step preserves ----

  /** The venue has no transfer for the row and never will. */
  ghost predicate Never(now: int, t: Transfer, v: Option<VenueTransfer>, refused: bool) {
    v.None? && (refused || t.createdAt + WINDOW < now)
  }

  ghost predicate Mirrors(t: Transfer, v: VenueTransfer) {
    && v.direction == t.direction && v.amount == t.amount
    && t.createdAt - WINDOW <= v.createdAt <= t.createdAt + WINDOW
  }

  ghost predicate RowOk(now: int, t: Transfer, v: Option<VenueTransfer>, refused: bool) {
    && t.createdAt <= now && 0 < t.amount
    && (v.Some? ==> !refused && Mirrors(t, v.value))
    && (t.venueId.Some? ==> v.Some? && v.value.id == t.venueId.value)
    && !t.state.Canceled?
    && (t.state.Settled? ==> t.venueId.Some? && v.value.state.VenueSettled?)
    && (t.state.Failed? ==> if t.venueId.Some? then v.value.state.VenueFailed? else Never(now, t, v, refused))
  }

  ghost predicate RowsOk(w: World) {
    && |w.venue| == |w.s.transfers| && w.s.status.Active?
    && forall i | 0 <= i < |w.venue| :: RowOk(w.now, w.s.transfers[i], w.venue[i], i in w.refused)
  }

  ghost predicate IdsDistinct(venue: seq<Option<VenueTransfer>>) {
    forall i, j | 0 <= i < j < |venue| :: venue[i].Some? && venue[j].Some? ==> venue[i].value.id != venue[j].value.id
  }

  ghost predicate Unambiguous(rows: seq<Transfer>) {
    forall i, j | 0 <= i < j < |rows| :: !(Unlinked(rows[i]) && Unlinked(rows[j]) && Alike(rows[i], rows[j]))
  }

  /** `seen` is the venue's record now or earlier. */
  ghost predicate NotAhead(seen: VenueTransfer, v: VenueTransfer) {
    v == seen || (seen.state.VenuePending? && v == seen.(state := v.state))
  }

  ghost predicate Reported(seen: VenueTransfer, v: Option<VenueTransfer>) { v.Some? && NotAhead(seen, v.value) }

  ghost predicate IntentOk(w: World, x: Intent) {
    && x.row < |w.venue| == |w.s.transfers|
    && match x
       // A view is of some row's transfer: the row's own, unless the row was settled or linked meanwhile.
       case Report(i, view) =>
         && (exists k :: 0 <= k < |w.venue| && Reported(view, w.venue[k]))
         && (Reported(view, w.venue[i]) || !Unlinked(w.s.transfers[i]))
       case GiveUp(i) =>
         w.s.transfers[i].venueId.Some? || Never(w.now, w.s.transfers[i], w.venue[i], i in w.refused)
  }

  /** A row as a pass loaded it, against the row now. */
  ghost predicate Older(was: Transfer, t: Transfer) {
    && Alike(was, t) && was.createdAt == t.createdAt
    && (was.venueId.Some? ==> t.venueId == was.venueId) && (!was.state.Pending? ==> t.state == was.state)
  }

  ghost predicate LoadedOk(w: World, p: Pass) {
    && |p.rows| <= |w.s.transfers| == |w.venue|
    && forall k | 0 <= k < |p.rows| :: Older(p.rows[k], w.s.transfers[k])
  }

  ghost predicate ListedOk(w: World, p: Pass)
    requires |p.rows| <= |w.venue|
  {
    p.listing.Some? ==>
      && p.listing.value.at <= w.now
      && (forall e <- p.listing.value.entries :: exists k :: 0 <= k < |w.venue| && Reported(e, w.venue[k]))
      && (p.listing.value.complete ==>
            forall k | 0 <= k < |p.rows| ::
              p.rows[k].state.Pending? && p.rows[k].createdAt + WINDOW < p.listing.value.at && w.venue[k].Some? ==>
                exists e :: e in p.listing.value.entries && NotAhead(e, w.venue[k].value))
  }

  ghost predicate PassOk(w: World, p: Pass) { LoadedOk(w, p) && ListedOk(w, p) }

  ghost predicate KnowledgeOk(w: World) {
    (forall x <- w.intents :: IntentOk(w, x)) && (forall p <- w.passes :: PassOk(w, p))
  }

  ghost predicate Inv(c: Setup, w: World) {
    && RowsOk(w) && IdsDistinct(w.venue) && Unambiguous(w.s.transfers) && KnowledgeOk(w)
    && w.s.cash == c.opening + SumOf(w.s.transfers, SettledAmount)
  }

  /** Time passes, rows and venue records are added or move forward: nothing known goes stale. */
  ghost predicate Grows(w: World, next: World) {
    && |w.venue| == |w.s.transfers| <= |next.s.transfers| == |next.venue|
    && w.now <= next.now && w.refused <= next.refused
    && (forall k | 0 <= k < |w.venue| :: Older(w.s.transfers[k], next.s.transfers[k]))
    && (forall k | 0 <= k < |w.venue| :: w.venue[k].Some? ==> Reported(w.venue[k].value, next.venue[k]))
    && (forall k | 0 <= k < |w.venue| ::
          Never(w.now, w.s.transfers[k], w.venue[k], k in w.refused) ==> next.venue[k].None?)
  }

  lemma KnowledgeStays(w: World, next: World)
    requires Grows(w, next) && KnowledgeOk(w) && next.intents == w.intents && next.passes == w.passes
    ensures KnowledgeOk(next)
  {
    forall x <- next.intents ensures IntentOk(next, x) { IntentStays(w, next, x); }
    forall p <- next.passes ensures PassOk(next, p) { PassStays(w, next, p); }
  }

  lemma IntentStays(w: World, next: World, x: Intent)
    requires Grows(w, next) && IntentOk(w, x)
    ensures IntentOk(next, x)
  {
  }

  lemma PassStays(w: World, next: World, p: Pass)
    requires Grows(w, next) && PassOk(w, p)
    ensures PassOk(next, p)
  {
  }

  // ---- when a pass's decision about a row is right ----

  /**
   * A pass picks a venue transfer for the row. It is the row's own exactly when the row is still
   * PENDING and unlinked at that moment: every other row's transfer is linked by then, and a row
   * another pass has linked meanwhile would be handed somebody else's.
   */
  lemma PickIsRightIff(c: Setup, w: World, p: Pass, i: TransferId, pick: VenueTransfer)
    requires Inv(c, w) && Enabled(c, w, Recover(p, i, Some(pick)))
    ensures i < |w.s.transfers| == |w.venue|
    ensures Reported(pick, w.venue[i]) <==> Unlinked(w.s.transfers[i])
  {
    assert PassOk(w, p) && Older(p.rows[i], w.s.transfers[i]);
    assert RowOk(w.now, w.s.transfers[i], w.venue[i], i in w.refused);
    var k :| 0 <= k < |w.venue| && Reported(pick, w.venue[k]);
    assert RowOk(w.now, w.s.transfers[k], w.venue[k], k in w.refused);
    assert w.s.transfers[k].venueId.None? by { assert !VenueIdLinked(w.s.transfers, pick.id); }
    assert Unlinked(w.s.transfers[k]) && Alike(w.s.transfers[k], w.s.transfers[i]);
  }

  /**
   * A pass gives up on a row when its listing holds no unlinked candidate. That is right, the venue
   * has nothing for the row and never will, exactly when the row is still unlinked at that moment:
   * a row another pass has linked meanwhile finds its own transfer taken, by itself.
   */
  lemma GivingUpIsRightIff(c: Setup, w: World, p: Pass, i: TransferId)
    requires Inv(c, w) && Enabled(c, w, Recover(p, i, None))
    ensures i < |w.s.transfers| == |w.venue|
    ensures Never(w.now, w.s.transfers[i], w.venue[i], i in w.refused) <==> w.s.transfers[i].venueId.None?
  {
    assert PassOk(w, p) && Older(p.rows[i], w.s.transfers[i]);
    var t := w.s.transfers[i];
    assert RowOk(w.now, t, w.venue[i], i in w.refused);
    hide Unambiguous, KnowledgeOk, SumOf, IdsDistinct, RowsOk;
    if w.venue[i].Some? {
      var e :| e in p.listing.value.entries && NotAhead(e, w.venue[i].value);
      assert Candidate(p.rows[i], e);
      assert VenueIdLinked(w.s.transfers, e.id);
      var m :| 0 <= m < |w.s.transfers| && w.s.transfers[m].venueId == Some(e.id);
      LinksItsOwn(w, i, m, e);
    }
  }

  lemma LinksItsOwn(w: World, i: TransferId, m: TransferId, e: VenueTransfer)
    requires RowsOk(w) && IdsDistinct(w.venue) && i < |w.venue| && w.venue[i].Some? && NotAhead(e, w.venue[i].value)
    requires m < |w.venue| && w.s.transfers[m].venueId == Some(e.id)
    ensures m == i
  {
    assert RowOk(w.now, w.s.transfers[m], w.venue[m], m in w.refused);
  }

  // ---- which steps are careless ----

  /** Failing a row whose venue transfer is there and may settle or has settled. */
  ghost predicate WrongFinish(w: World, i: TransferId) {
    && i < |w.s.transfers| && i < |w.venue|
    && w.s.transfers[i].state.Pending? && w.s.transfers[i].venueId.Some?
    && w.venue[i].Some? && !w.venue[i].value.state.VenueFailed?
  }

  /** Recording an id that is not of the row's own venue transfer. */
  ghost predicate WrongLink(w: World, i: TransferId, view: VenueTransfer) {
    && i < |w.s.transfers| && w.s.transfers[i].venueId.None? && !VenueIdLinked(w.s.transfers, view.id)
    && !(i < |w.venue| && w.venue[i].Some? && w.venue[i].value.id == view.id)
  }

  /** Ending a row as a view says, where the row's own venue transfer has not ended so. */
  ghost predicate WrongOutcome(w: World, i: TransferId, view: VenueTransfer) {
    && i < |w.s.transfers| && i < |w.venue| && w.venue[i].Some?
    && var t := w.s.transfers[i];
    && t.state.Pending? && view.direction == t.direction && view.amount == t.amount
    && view.state != w.venue[i].value.state
    && (view.state.VenueFailed? || (view.state.VenueSettled? && SettledLocked(w.s, i).Commit?))
  }

  ghost predicate Careful(c: Setup, w: World, a: Act) {
    Enabled(c, w, a) ==>
      match a
      case RecordId(i, view) => !WrongLink(w, i, view)
      case ApplyState(i, view) => !WrongOutcome(w, i, view)
      case Finish(i) => !WrongFinish(w, i)
      case _ => true
  }

  /** What the transactions could look at under their locks, and do not. */
  ghost predicate Guarded(w: World, a: Act) {
    match a
    case RecordId(i, _) => i < |w.s.transfers| ==> w.s.transfers[i].state.Pending?
    case ApplyState(i, view) => i < |w.s.transfers| ==> w.s.transfers[i].venueId == Some(view.id)
    case Finish(i) => i < |w.s.transfers| ==> !w.s.transfers[i].state.Pending? || w.s.transfers[i].venueId.None?
    case _ => true
  }

  /** Those three looks are enough. */
  lemma GuardsSuffice(c: Setup, w: World, a: Act)
    requires Inv(c, w) && Guarded(w, a)
    ensures Careful(c, w, a)
  {
    hide SumOf, Unambiguous, SettledLocked;
    if Enabled(c, w, a) && (a.RecordId? || a.ApplyState?) {
      assert IntentOk(w, Report(a.row, a.view));
      assert RowOk(w.now, w.s.transfers[a.row], w.venue[a.row], a.row in w.refused);
    }
  }

  // ---- every careful step keeps the invariant ----

  lemma LearnKeeps(c: Setup, w: World, next: World, x: Intent)
    requires Inv(c, w) && IntentOk(w, x) && next == w.(intents := w.intents + {x})
    ensures Inv(c, next)
  {
  }

  lemma VenueSideKeeps(c: Setup, w: World, next: World)
    requires Inv(c, w) && Grows(w, next)
    requires next.s == w.s && next.passes == w.passes && next.intents == w.intents
    requires RowsOk(next) && IdsDistinct(next.venue)
    ensures Inv(c, next)
  {
    hide RowsOk, IdsDistinct, Unambiguous, SumOf, IntentOk, PassOk;
    KnowledgeStays(w, next);
  }

  lemma TickKeeps(c: Setup, w: World, ms: nat)
    requires Inv(c, w)
    ensures Inv(c, After(c, w, Tick(ms)))
  {
  }

  lemma CreateKeeps(c: Setup, w: World, i: TransferId, id: VenueId, stamp: int)
    requires Inv(c, w)
    ensures Inv(c, After(c, w, VenueCreates(i, id, stamp)))
  {
    hide Unambiguous, SumOf, KnowledgeOk;
    var a := VenueCreates(i, id, stamp);
    if Enabled(c, w, a) {
      var next := After(c, w, a);
      assert RowOk(w.now, w.s.transfers[i], w.venue[i], i in w.refused);
      assert RowsOk(next);
      assert IdsDistinct(next.venue);
      assert Grows(w, next);
      VenueSideKeeps(c, w, next);
    }
  }

  lemma EndKeeps(c: Setup, w: World, i: TransferId, settled: bool)
    requires Inv(c, w)
    ensures Inv(c, After(c, w, VenueEnds(i, settled)))
  {
    hide Unambiguous, SumOf, KnowledgeOk;
    var a := VenueEnds(i, settled);
    if Enabled(c, w, a) {
      var next := After(c, w, a);
      assert Grows(w, next);
      assert RowsOk(next);
      assert IdsDistinct(next.venue);
      VenueSideKeeps(c, w, next);
    }
  }

  lemma RefuseKeeps(c: Setup, w: World, i: TransferId)
    requires Inv(c, w)
    ensures Inv(c, After(c, w, VenueRefuses(i)))
  {
  }

  lemma LoadKeeps(c: Setup, w: World)
    requires Inv(c, w)
    ensures Inv(c, After(c, w, Load))
  {
  }

  lemma ListKeeps(c: Setup, w: World, p: Pass, listing: Listing)
    requires Inv(c, w)
    ensures Inv(c, After(c, w, List(p, listing)))
  {
    hide Unambiguous, SumOf, IdsDistinct;
    if Enabled(c, w, List(p, listing)) {
      assert PassOk(w, p);
      ListingIsKnown(w, p, listing);
    }
  }

  lemma ListingIsKnown(w: World, p: Pass, listing: Listing)
    requires RowsOk(w) && LoadedOk(w, p) && listing.at == w.now && ListingOf(p.rows, w.venue, listing)
    ensures PassOk(w, p.(listing := Some(listing)))
  {
  }

  lemma ReadListedKeeps(c: Setup, w: World, p: Pass, i: TransferId, view: VenueTransfer)
    requires Inv(c, w)
    ensures Inv(c, After(c, w, ReadListed(p, i, view)))
  {
  }

  lemma RecoverKeeps(c: Setup, w: World, p: Pass, i: TransferId, pick: Option<VenueTransfer>)
    requires Inv(c, w)
    ensures Inv(c, After(c, w, Recover(p, i, pick)))
  {
    var a := Recover(p, i, pick);
    if Enabled(c, w, a) {
      assert PassOk(w, p);
      hide RowsOk, IdsDistinct, Unambiguous, SumOf, KnowledgeOk;
      if pick.Some? {
        PickIsRightIff(c, w, p, i, pick.value);
        LearnKeeps(c, w, After(c, w, a), Report(i, pick.value));
      } else {
        GivingUpIsRightIff(c, w, p, i);
        LearnKeeps(c, w, After(c, w, a), GiveUp(i));
      }
    }
  }

  /** A local transaction changes one row of `transfers`, or appends one, and cash by what settled. */
  lemma AskKeeps(c: Setup, w: World, direction: Direction, amount: Money, key: Key)
    requires Inv(c, w)
    ensures Inv(c, After(c, w, Ask(direction, amount, key)))
  {
    hide SumOf, KnowledgeOk, IdsDistinct, RequestOk, WithKey;
    var a := Ask(direction, amount, key);
    var next := After(c, w, a);
    if Enabled(c, w, a) && next.s != w.s {
      var t := Transfer(direction, amount, key, w.now, Pending, None, NoReason);
      assert next.s == w.s.(transfers := w.s.transfers + [t]) && next.venue == w.venue + [None];
      SumAppend(w.s.transfers, t, SettledAmount);
      assert Grows(w, next);
      assert RowsOk(next);
      NewRowStaysUnambiguous(w.s.transfers, t);
      assert IdsDistinct(next.venue) by { NoneAppended(w.venue); }
      KnowledgeStays(w, next);
    }
  }

  lemma NoneAppended(venue: seq<Option<VenueTransfer>>)
    requires IdsDistinct(venue)
    ensures IdsDistinct(venue + [None])
  {
  }

  lemma NewRowStaysUnambiguous(rows: seq<Transfer>, t: Transfer)
    requires Unambiguous(rows) && !Ambiguous(rows, t.direction, t.amount)
    ensures Unambiguous(rows + [t])
  {
  }

  /** Replacing a row by one that is not newly unlinked keeps rows and knowledge in order. */
  lemma RowStepKeeps(c: Setup, w: World, next: World, i: TransferId, row: Transfer)
    requires Inv(c, w) && i < |w.s.transfers|
    requires next == w.(s := next.s) && next.s.status.Active? && next.s.transfers == w.s.transfers[i := row]
    requires Older(w.s.transfers[i], row) && (Unlinked(row) ==> Unlinked(w.s.transfers[i]))
    requires RowOk(w.now, row, w.venue[i], i in w.refused)
    requires next.s.cash == w.s.cash + SettledAmount(row) - SettledAmount(w.s.transfers[i])
    ensures Inv(c, next)
  {
    hide SumOf, KnowledgeOk, IdsDistinct;
    SumUpdate(w.s.transfers, i, row, SettledAmount);
    assert Grows(w, next);
    assert RowsOk(next);
    RowReplaced(w.s.transfers, i, row);
    KnowledgeStays(w, next);
  }

  lemma RowReplaced(rows: seq<Transfer>, i: nat, row: Transfer)
    requires Unambiguous(rows) && i < |rows| && Alike(rows[i], row) && (Unlinked(row) ==> Unlinked(rows[i]))
    ensures Unambiguous(rows[i := row])
  {
  }

  lemma RecordKeeps(c: Setup, w: World, i: TransferId, view: VenueTransfer)
    requires Inv(c, w) && !WrongLink(w, i, view)
    ensures Inv(c, After(c, w, RecordId(i, view)))
  {
    hide SumOf, IdsDistinct, Unambiguous, VenueIdLinked;
    var a := RecordId(i, view);
    var next := After(c, w, a);
    if Enabled(c, w, a) && next.s != w.s {
      assert IntentOk(w, Report(i, view));
      assert RowOk(w.now, w.s.transfers[i], w.venue[i], i in w.refused);
      UnlinkedNotSettled(w, i);
      RowStepKeeps(c, w, next, i, w.s.transfers[i].(venueId := Some(view.id)));
    }
  }

  lemma UnlinkedNotSettled(w: World, i: TransferId)
    requires RowsOk(w) && i < |w.venue| && w.venue[i].Some? && w.s.transfers[i].venueId.None?
    ensures w.s.transfers[i].state.Pending?
  {
  }

  lemma ApplyKeeps(c: Setup, w: World, i: TransferId, view: VenueTransfer)
    requires Inv(c, w) && !WrongOutcome(w, i, view)
    ensures Inv(c, After(c, w, ApplyState(i, view)))
  {
    hide SumOf, IdsDistinct, Unambiguous, TransferPosted;
    var a := ApplyState(i, view);
    var next := After(c, w, a);
    if Enabled(c, w, a) && next.s != w.s {
      assert IntentOk(w, Report(i, view));
      assert RowOk(w.now, w.s.transfers[i], w.venue[i], i in w.refused);
      RowStepKeeps(c, w, next, i, next.s.transfers[i]);
    }
  }

  lemma FinishKeeps(c: Setup, w: World, i: TransferId)
    requires Inv(c, w) && !WrongFinish(w, i)
    ensures Inv(c, After(c, w, Act.Finish(i)))
  {
    hide SumOf, IdsDistinct, Unambiguous;
    var a := Act.Finish(i);
    var next := After(c, w, a);
    if Enabled(c, w, a) && next.s != w.s {
      assert IntentOk(w, GiveUp(i));
      assert RowOk(w.now, w.s.transfers[i], w.venue[i], i in w.refused);
      RowStepKeeps(c, w, next, i, next.s.transfers[i]);
    }
  }

  lemma StepKeeps(c: Setup, w: World, a: Act)
    requires Inv(c, w) && Careful(c, w, a)
    ensures Inv(c, After(c, w, a))
  {
    if !Enabled(c, w, a) { return; }
    hide Inv, Enabled, After;
    match a
    case Tick(ms) => TickKeeps(c, w, ms);
    case Ask(direction, amount, key) => AskKeeps(c, w, direction, amount, key);
    case VenueCreates(i, id, stamp) => CreateKeeps(c, w, i, id, stamp);
    case VenueEnds(i, settled) => EndKeeps(c, w, i, settled);
    case VenueRefuses(i) => RefuseKeeps(c, w, i);
    case Answer(i) => AnswerKeeps(c, w, i);
    case Load => LoadKeeps(c, w);
    case List(p, listing) => ListKeeps(c, w, p, listing);
    case ReadListed(p, i, view) => ReadListedKeeps(c, w, p, i, view);
    case Recover(p, i, pick) => RecoverKeeps(c, w, p, i, pick);
    case RecordId(i, view) => RecordKeeps(c, w, i, view);
    case ApplyState(i, view) => ApplyKeeps(c, w, i, view);
    case Finish(i) => FinishKeeps(c, w, i);
  }

  lemma AnswerKeeps(c: Setup, w: World, i: TransferId)
    requires Inv(c, w)
    ensures Inv(c, After(c, w, Answer(i)))
  {
  }

  // ---- the protocol is safe ----

  function VenueEffect(v: Option<VenueTransfer>): Money {
    if v.Some? && v.value.state.VenueSettled? then
      if v.value.direction.Deposit? then v.value.amount else -v.value.amount
    else 0
  }

  /** What the venue really holds: its opening cash and every transfer it settled. */
  function VenueCash(c: Setup, w: World): Money { c.base + SumOf(w.venue, VenueEffect) }

  /** What a row contributes to cash less pending withdrawals. */
  function Spendable(t: Transfer): Money { SettledAmount(t) - WithdrawalHold(t) }

  ghost predicate LinksInjective(rows: seq<Transfer>) {
    forall i, j | 0 <= i < j < |rows| :: rows[i].venueId.Some? ==> rows[i].venueId != rows[j].venueId
  }

  ghost predicate SettledMatches(w: World)
    requires |w.venue| == |w.s.transfers|
  {
    forall i | 0 <= i < |w.venue| ::
      var t, v := w.s.transfers[i], w.venue[i];
      && (t.state.Settled? ==>
           v.Some? && v.value.state.VenueSettled? && v.value.direction == t.direction && v.value.amount == t.amount)
      && (t.state.Failed? ==> VenueEffect(v) == 0)
  }

  lemma {:induction false} SpendableSum(rows: seq<Transfer>)
    ensures SumOf(rows, Spendable) == SumOf(rows, SettledAmount) - SumOf(rows, WithdrawalHold)
  {
    if rows != [] { SpendableSum(rows[..|rows| - 1]); }
  }

  /** Every recorded venue id is that of the row's own venue transfer. */
  ghost predicate OwnLinks(w: World)
    requires |w.venue| == |w.s.transfers|
  {
    forall i | 0 <= i < |w.venue| && w.s.transfers[i].venueId.Some? ::
      w.venue[i].Some? && w.venue[i].value.id == w.s.transfers[i].venueId.value
  }

  ghost predicate Safe(c: Setup, w: World) {
    && |w.venue| == |w.s.transfers|
    && LinksInjective(w.s.transfers) && OwnLinks(w) && SettledMatches(w)
    && w.s.cash - SumOf(w.s.transfers, WithdrawalHold) <= VenueCash(c, w)
  }

  lemma InvIsSafe(c: Setup, w: World)
    requires c.Valid() && Inv(c, w)
    ensures Safe(c, w)
  {
    hide SumOf, KnowledgeOk, Unambiguous;
    forall i | 0 <= i < |w.venue|
      ensures Spendable(w.s.transfers[i]) <= VenueEffect(w.venue[i])
    {
      assert RowOk(w.now, w.s.transfers[i], w.venue[i], i in w.refused);
    }
    SumAtMost(w.s.transfers, Spendable, w.venue, VenueEffect);
    SpendableSum(w.s.transfers);
  }

  lemma StartIsSound(c: Setup, w: World)
    requires Start(c, w)
    ensures Inv(c, w)
  {
  }

  /** Every step of the run is careful. */
  ghost predicate AllCareful(c: Setup, w: World, acts: seq<Act>) {
    acts == [] ||
      var n := |acts| - 1;
      AllCareful(c, w, acts[..n]) && Careful(c, Play(c, w, acts[..n]), acts[n])
  }

  lemma {:induction false} PlayKeeps(c: Setup, w: World, acts: seq<Act>)
    requires Inv(c, w) && AllCareful(c, w, acts)
    ensures Inv(c, Play(c, w, acts))
  {
    hide Inv, After, Careful;
    if acts != [] {
      var n := |acts| - 1;
      PlayKeeps(c, w, acts[..n]);
      StepKeeps(c, Play(c, w, acts[..n]), acts[n]);
    }
  }

  /**
   * Lost-answer safety: however requests, answers, crashes and passes interleave, no two rows share
   * a venue transfer, a SETTLED row's venue transfer is SETTLED with its direction and amount, a
   * FAILED row's never moves money, and what may be spent never exceeds what the venue holds.
   */
  lemma {:induction false} LostAnswerSafety(c: Setup, w: World, acts: seq<Act>)
    requires c.Valid() && Start(c, w) && AllCareful(c, w, acts)
    ensures Safe(c, Play(c, w, acts))
  {
    StartIsSound(c, w);
    PlayKeeps(c, w, acts);
    InvIsSafe(c, Play(c, w, acts));
  }

  /** With the three looks added to the transactions, every run is careful, so every run is safe. */
  lemma {:induction false} GuardedRunsAreSafe(c: Setup, w: World, acts: seq<Act>)
    requires c.Valid() && Start(c, w)
    requires forall n | 0 <= n < |acts| :: Guarded(Play(c, w, acts[..n]), acts[n])
    ensures Safe(c, Play(c, w, acts))
  {
    hide Inv, Careful, Guarded, Start, Safe, After;
    GuardedIsCareful(c, w, acts);
    LostAnswerSafety(c, w, acts);
  }

  lemma {:induction false} GuardedIsCareful(c: Setup, w: World, acts: seq<Act>)
    requires Start(c, w) && forall n | 0 <= n < |acts| :: Guarded(Play(c, w, acts[..n]), acts[n])
    ensures AllCareful(c, w, acts)
  {
    hide Inv, Careful, Guarded, Start, After;
    StartIsSound(c, w);
    if acts != [] {
      var m := |acts| - 1;
      var before := acts[..m];
      forall n | 0 <= n < |before| ensures Guarded(Play(c, w, before[..n]), before[n]) {
        assert before[..n] == acts[..n];
      }
      GuardedIsCareful(c, w, before);
      PlayKeeps(c, w, before);
      GuardsSuffice(c, Play(c, w, before), acts[m]);
    }
  }

  // ---- and no weaker condition would do ----

  /** A step keeps the invariant exactly when it is careful. */
  lemma StepKeepsIff(c: Setup, w: World, a: Act)
    requires Inv(c, w)
    ensures Inv(c, After(c, w, a)) <==> Careful(c, w, a)
  {
    if Careful(c, w, a) {
      StepKeeps(c, w, a);
    } else {
      hide SumOf, IdsDistinct, Unambiguous, KnowledgeOk, TransferPosted;
      var i := a.row;
      assert RowOk(w.now, w.s.transfers[i], w.venue[i], i in w.refused);
      var next := After(c, w, a);
      assert !RowOk(next.now, next.s.transfers[i], next.venue[i], i in next.refused);
    }
  }

  /** A run step by step from the front. */
  lemma {:induction false} StepThenPlay(c: Setup, w: World, a: Act, rest: seq<Act>)
    ensures Play(c, w, [a] + rest) == Play(c, After(c, w, a), rest)
    ensures Careful(c, w, a) && AllCareful(c, After(c, w, a), rest) ==> AllCareful(c, w, [a] + rest)
  {
    hide After, Careful;
    var acts := [a] + rest;
    if rest == [] {
      assert acts == [a] && [a][..0] == [];
    } else {
      var n := |rest| - 1;
      StepThenPlay(c, w, a, rest[..n]);
      assert acts[..|rest|] == [a] + rest[..n];
    }
  }

  /** The venue settles the transfer of row i, if it has not ended it yet. */
  function Settling(w: World, i: TransferId): seq<Act>
    requires i < |w.venue| && w.venue[i].Some?
  {
    if w.venue[i].value.state.VenuePending? then [VenueEnds(i, true)] else []
  }

  /** A FAILED row whose venue transfer is not FAILED: the venue may yet settle it. */
  lemma FailedMaySettle(c: Setup, w: World, i: TransferId)
    requires i < |w.venue| == |w.s.transfers| && w.venue[i].Some? && 0 < w.venue[i].value.amount
    requires w.s.transfers[i].state.Failed? && !w.venue[i].value.state.VenueFailed?
    ensures AllCareful(c, w, Settling(w, i))
    ensures var end := Play(c, w, Settling(w, i)); |end.venue| == |end.s.transfers| && !SettledMatches(end)
  {
    var acts := Settling(w, i);
    var end := Play(c, w, acts);
    if acts != [] { StepThenPlay(c, w, VenueEnds(i, true), []); }
    assert VenueEffect(end.venue[i]) != 0;
  }

  /** After any careless step the run is unsafe, at once or when the venue settles the transfer. */
  lemma CarelessIsUnsafe(c: Setup, w: World, a: Act) returns (acts: seq<Act>)
    requires Inv(c, w) && !Careful(c, w, a)
    ensures AllCareful(c, After(c, w, a), acts) && |acts| <= 1 && !Safe(c, Play(c, After(c, w, a), acts))
  {
    hide SumOf, IdsDistinct, Unambiguous, KnowledgeOk, TransferPosted;
    var i, next := a.row, After(c, w, a);
    assert RowOk(w.now, w.s.transfers[i], w.venue[i], i in w.refused);
    acts := [];
    if next.s.transfers[i].state.Failed? && w.s.transfers[i].state.Pending? {
      FailedMaySettle(c, next, i);
      acts := Settling(next, i);
    }
  }

  /** What a listing of everything the venue has now brings back. */
  ghost function Everything(w: World): Listing {
    Listing(w.now, set i | 0 <= i < |w.venue| && w.venue[i].Some? :: w.venue[i].value, true)
  }

  /** Row k waits for an id that another row has taken, and no transfer is left that could answer for it. */
  ghost predicate Robbed(w: World, k: TransferId) {
    && k < |w.venue| == |w.s.transfers| && Unlinked(w.s.transfers[k]) && w.s.transfers[k].createdAt <= w.now
    && forall m | 0 <= m < |w.venue| && w.venue[m].Some? && Candidate(w.s.transfers[k], w.venue[m].value) ::
         VenueIdLinked(w.s.transfers, w.venue[m].value.id)
  }

  lemma FourSteps(c: Setup, w: World, a: Act, x: World, b: Act, y: World, d: Act, z: World, e: Act, end: World)
    requires After(c, w, a) == x && After(c, x, b) == y && After(c, y, d) == z && After(c, z, e) == end
    requires Careful(c, w, a) && Careful(c, x, b) && Careful(c, y, d) && Careful(c, z, e)
    ensures var acts := [a] + ([b] + ([d] + [e])); Play(c, w, acts) == end && AllCareful(c, w, acts)
  {
    assert Play(c, end, []) == end && AllCareful(c, end, []);
    hide *;
    assert [e] + [] == [e];
    StepThenPlay(c, z, e, []);
    StepThenPlay(c, y, d, [e]);
    StepThenPlay(c, x, b, [d] + [e]);
    StepThenPlay(c, w, a, [b] + ([d] + [e]));
  }

  lemma ListsEverything(c: Setup, w: World, p: Pass)
    requires p in w.passes && p.listing.None?
    ensures After(c, w, List(p, Everything(w))) == w.(passes := w.passes + {p.(listing := Some(Everything(w)))})
  {
    assert ListingOf(p.rows, w.venue, Everything(w));
  }

  lemma FindsNothing(c: Setup, w: World, q: Pass, k: TransferId)
    requires c.Valid() && Robbed(w, k) && q in w.passes && q.rows == w.s.transfers && q.listing == Some(Everything(w))
    requires c.grace < w.now - w.s.transfers[k].createdAt
    ensures After(c, w, Recover(q, k, None)) == w.(intents := w.intents + {GiveUp(k)})
  {
    hide VenueIdLinked, Candidate;
    assert IsPick(q.rows[k], q.listing.value.entries, w.s.transfers, None);
  }

  /** The pass loads, lists and gives up on the row. */
  lemma PassGivesUp(c: Setup, w: World, k: TransferId) returns (acts: seq<Act>, next: World)
    requires c.Valid() && Robbed(w, k)
    ensures Play(c, w, acts) == next && AllCareful(c, w, acts)
    ensures next == w.(now := next.now, passes := next.passes, intents := next.intents) && GiveUp(k) in next.intents
  {
    hide Candidate, VenueIdLinked;
    var later := w.(now := w.now + c.grace + 1);
    var p := Pass(w.s.transfers, None);
    var loaded := later.(passes := later.passes + {p});
    var q := p.(listing := Some(Everything(loaded)));
    var listed := loaded.(passes := loaded.passes + {q});
    ListsEverything(c, loaded, p);
    FindsNothing(c, listed, q, k);
    next := listed.(intents := listed.intents + {GiveUp(k)});
    acts := [Tick(c.grace + 1)] + ([Load] + ([List(p, Everything(loaded))] + [Recover(q, k, None)]));
    FourSteps(c, w, Tick(c.grace + 1), later, Load, loaded, List(p, Everything(loaded)), listed, Recover(q, k, None), next);
  }

  lemma {:induction false} PlayConcat(c: Setup, w: World, first: seq<Act>, rest: seq<Act>)
    ensures Play(c, w, first + rest) == Play(c, Play(c, w, first), rest)
  {
    hide After;
    if rest == [] {
      assert first + rest == first;
    } else {
      var n := |rest| - 1;
      PlayConcat(c, w, first, rest[..n]);
      assert (first + rest)[..|first| + n] == first + rest[..n];
    }
  }

  lemma {:induction false} CarefulConcat(c: Setup, w: World, first: seq<Act>, rest: seq<Act>)
    requires AllCareful(c, w, first) && AllCareful(c, Play(c, w, first), rest)
    ensures AllCareful(c, w, first + rest)
  {
    hide Careful, Play;
    if rest == [] {
      assert first + rest == first;
    } else {
      var n := |rest| - 1;
      CarefulConcat(c, w, first, rest[..n]);
      PlayConcat(c, w, first, rest[..n]);
      assert (first + rest)[..|first| + n] == first + rest[..n];
    }
  }

  lemma OneMoreCareful(c: Setup, w: World, acts: seq<Act>, a: Act)
    requires AllCareful(c, w, acts) && Careful(c, Play(c, w, acts), a)
    ensures AllCareful(c, w, acts + [a])
  {
    hide Careful, Play;
    assert (acts + [a])[..|acts|] == acts;
  }

  /** Whose id a wrong link takes: a PENDING row's that nothing else will now answer for. */
  lemma WrongLinkRobs(c: Setup, w: World, i: TransferId, view: VenueTransfer) returns (k: TransferId)
    requires Inv(c, w) && Report(i, view) in w.intents && WrongLink(w, i, view)
    ensures Robbed(After(c, w, RecordId(i, view)), k) && k < |w.venue|
    ensures w.venue[k].Some? && w.venue[k].value.id == view.id && 0 < w.venue[k].value.amount
  {
    assert IntentOk(w, Report(i, view));
    hide SumOf, KnowledgeOk, IdsDistinct;
    k :| 0 <= k < |w.venue| && Reported(view, w.venue[k]);
    assert RowOk(w.now, w.s.transfers[k], w.venue[k], k in w.refused);
    assert RowOk(w.now, w.s.transfers[i], w.venue[i], i in w.refused);
    var next := After(c, w, RecordId(i, view));
    assert next == w.(s := next.s) && next.s.transfers == w.s.transfers[i := w.s.transfers[i].(venueId := Some(view.id))];
    AlikeAreLinked(w, k, next.s.transfers, i);
  }

  /** The rows that could be taken for k have their own ids recorded, k's own was given to row i. */
  lemma AlikeAreLinked(w: World, k: TransferId, rows: seq<Transfer>, i: TransferId)
    requires RowsOk(w) && Unambiguous(w.s.transfers) && k < |w.venue| && w.venue[k].Some? && Unlinked(w.s.transfers[k])
    requires i < |w.venue| && w.s.transfers[i].venueId.None?
    requires rows == w.s.transfers[i := w.s.transfers[i].(venueId := Some(w.venue[k].value.id))]
    ensures forall m | 0 <= m < |w.venue| && w.venue[m].Some? && Candidate(rows[k], w.venue[m].value) ::
              VenueIdLinked(rows, w.venue[m].value.id)
  {
    hide Unambiguous;
    forall m | 0 <= m < |w.venue| && w.venue[m].Some? && Candidate(rows[k], w.venue[m].value)
      ensures VenueIdLinked(rows, w.venue[m].value.id)
    {
      assert RowOk(w.now, w.s.transfers[m], w.venue[m], m in w.refused);
      if m == k {
        assert rows[i].venueId == Some(w.venue[m].value.id);
      } else {
        AlikeIsLinked(w, m, k);
        assert rows[m].venueId == Some(w.venue[m].value.id);
      }
    }
  }

  lemma AlikeIsLinked(w: World, m: TransferId, k: TransferId)
    requires RowsOk(w) && Unambiguous(w.s.transfers) && k < |w.venue| && Unlinked(w.s.transfers[k]) && m < |w.venue| && m != k
    requires w.venue[m].Some? && Alike(w.s.transfers[m], w.s.transfers[k])
    ensures w.s.transfers[m].venueId == Some(w.venue[m].value.id)
  {
    assert RowOk(w.now, w.s.transfers[m], w.venue[m], m in w.refused);
  }

  lemma FinishFails(c: Setup, w: World, k: TransferId)
    requires GiveUp(k) in w.intents && k < |w.venue| == |w.s.transfers| && Unlinked(w.s.transfers[k])
    ensures Careful(c, w, Finish(k))
    ensures var end := After(c, w, Finish(k));
      && end.venue == w.venue && |end.s.transfers| == |w.s.transfers| && end.s.transfers[k].state.Failed?
  {
  }

  /** The pass that gives up on a robbed row, through to the row's failure. */
  lemma PassFails(c: Setup, w: World, k: TransferId) returns (acts: seq<Act>, end: World)
    requires c.Valid() && Robbed(w, k)
    ensures Play(c, w, acts) == end && AllCareful(c, w, acts)
    ensures end.venue == w.venue && k < |end.s.transfers| == |w.s.transfers| && end.s.transfers[k].state.Failed?
  {
    var passed, mid := PassGivesUp(c, w, k);
    assert Unlinked(mid.s.transfers[k]);
    hide *;
    FinishFails(c, mid, k);
    OneMoreCareful(c, w, passed, Finish(k));
    acts, end := passed + [Finish(k)], After(c, mid, Finish(k));
    PlayOne(c, mid, Finish(k));
    PlayConcat(c, w, passed, [Finish(k)]);
  }

  lemma PlayOne(c: Setup, w: World, a: Act)
    ensures Play(c, w, [a]) == After(c, w, a)
  {
    assert [a][..0] == [];
    hide After;
  }

  /**
   * A wrong link costs money: unless the venue has failed the transfer whose id was taken, an
   * ordinary pass fails the row it belongs to, and the venue then settles it.
   */
  lemma WrongLinkLosesATransfer(c: Setup, w: World, i: TransferId, view: VenueTransfer) returns (acts: seq<Act>)
    requires c.Valid() && Inv(c, w) && Report(i, view) in w.intents && WrongLink(w, i, view)
    requires forall k | 0 <= k < |w.venue| && w.venue[k].Some? && w.venue[k].value.id == view.id ::
               !w.venue[k].value.state.VenueFailed?
    ensures var next := After(c, w, RecordId(i, view)); var end := Play(c, next, acts);
      AllCareful(c, next, acts) && |end.venue| == |end.s.transfers| && !SettledMatches(end)
  {
    var next := After(c, w, RecordId(i, view));
    assert next.venue == w.venue;
    var k := WrongLinkRobs(c, w, i, view);
    assert |next.venue| == |next.s.transfers|;
    hide *;
    var passed, end := PassFails(c, next, k);
    FailedMaySettle(c, end, k);
    acts := passed + Settling(end, k);
    PlayConcat(c, next, passed, Settling(end, k));
    CarefulConcat(c, next, passed, Settling(end, k));
  }
}

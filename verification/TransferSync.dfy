/** One sync pass over an account's PENDING transfers: ask the venue, link, settle, fail, count. */
module TransferSync {
  import opened Wrappers
  import opened Sums
  import opened StableSort
  import opened MoneyMath
  import opened OrderMachine
  import opened Rows
  import opened Accounting
  import opened Transfers
  import opened Recovery
  import opened Conservation

  /** getTransfer by id: it threw, every page was read without it, or here it is. */
  datatype Lookup = Unreachable | NotThere | There(view: VenueTransfer)

  datatype Answers = Answers(now: int, grace: nat, listed: Option<seq<VenueTransfer>>, complete: bool, byId: VenueId -> Lookup)
  {
    predicate PastGrace(t: Transfer) { grace < now - t.createdAt }
  }

  // ---- the candidates of a row with a lost id ----

  function DistanceFrom(t: Transfer): VenueTransfer -> int { (v: VenueTransfer) => Distance(t, v) }

  method Candidates(t: Transfer, listed: seq<VenueTransfer>) returns (found: seq<VenueTransfer>)
    ensures Ascends(found, DistanceFrom(t)) && forall v :: v in found <==> v in listed && Candidate(t, v)
  {
    hide Inserted, DistanceFrom, Candidate;
    found := [];
    for i := 0 to |listed|
      invariant Ascends(found, DistanceFrom(t)) && forall v :: v in found <==> v in listed[..i] && Candidate(t, v)
    {
      assert listed[..i + 1] == listed[..i] + [listed[i]];
      if Candidate(t, listed[i]) {
        InsertedAscends(found, DistanceFrom(t), listed[i]);
        InsertedMembers(found, DistanceFrom(t), listed[i]);
        found := Inserted(found, DistanceFrom(t), listed[i]);
      }
    }
    assert listed[..|listed|] == listed;
  }

  method Pick(tx: Database, t: Transfer, listed: seq<VenueTransfer>) returns (pick: Option<VenueTransfer>)
    ensures IsPick(t, Entries(listed), tx.transfers, pick)
  {
    var candidates := Candidates(t, listed);
    for i := 0 to |candidates|
      invariant forall v <- candidates[..i] :: VenueIdLinked(tx.transfers, v.id)
    {
      if !VenueIdLinked(tx.transfers, candidates[i].id) {
        ClosestUnlinked(t, candidates, tx.transfers, i);
        return Some(candidates[i]);
      }
      assert candidates[..i + 1] == candidates[..i] + [candidates[i]];
    }
    assert candidates[..|candidates|] == candidates;
    return None;
  }

  ghost function Entries(listed: seq<VenueTransfer>): set<VenueTransfer> { set v | v in listed }

  lemma ClosestUnlinked(t: Transfer, candidates: seq<VenueTransfer>, rows: seq<Transfer>, i: nat)
    requires i < |candidates| && Ascends(candidates, DistanceFrom(t))
    requires forall v <- candidates[..i] :: VenueIdLinked(rows, v.id)
    ensures forall v <- candidates | !VenueIdLinked(rows, v.id) :: Distance(t, candidates[i]) <= Distance(t, v)
  {
  }

  /** The listing's record of a linked row, if it has one. */
  function Listed(listed: seq<VenueTransfer>, id: VenueId): (r: Option<VenueTransfer>)
    ensures r.Some? ==> r.value in listed && r.value.id == id
    ensures r.None? ==> forall v <- listed :: v.id != id
  {
    if listed == [] then None
    else if listed[0].id == id then Some(listed[0])
    else Listed(listed[1..], id)
  }

  // ---- one row ----

  /** applyVenueState, its two transactions one after the other; None where the second throws. */
  ghost predicate Viewed(s: State, i: TransferId, v: VenueTransfer, next: State, answer: Option<TransferState>) {
    match VenueIdRecorded(s, i, v.id)
    case Abort => next == s && answer.None?
    case Commit(mid) =>
      match VenueStateApplied(mid, i, v)
      case Abort => next == mid && answer.None?
      case Commit(end) => next == end && i < |end.transfers| && answer == Some(end.transfers[i].state)
  }

  ghost predicate GivenUp(s: State, i: TransferId, next: State, answer: Option<TransferState>) {
    Finished(s, i, Failed) == Commit(next) && i < |next.transfers| && answer == Some(next.transfers[i].state)
  }

  ghost predicate Left(s: State, i: TransferId, next: State, answer: Option<TransferState>) {
    next == s && i < |s.transfers| && answer == Some(s.transfers[i].state)
  }

  ghost predicate Threw(s: State, next: State, answer: Option<TransferState>) { next == s && answer.None? }

  /** syncOne, when nothing else runs. */
  ghost predicate Synced(s: State, i: TransferId, a: Answers, next: State, answer: Option<TransferState>)
    requires i < |s.transfers|
  {
    var t := s.transfers[i];
    if !s.linked then
      if a.PastGrace(t) then GivenUp(s, i, next, answer) else Left(s, i, next, answer)
    else if t.venueId.Some? then
      var listed := if a.listed.Some? then Listed(a.listed.value, t.venueId.value) else None;
      if listed.Some? then Viewed(s, i, listed.value, next, answer)
      else
        match a.byId(t.venueId.value)
        case Unreachable => Threw(s, next, answer)
        case There(v) => Viewed(s, i, v, next, answer)
        case NotThere => if a.PastGrace(t) then GivenUp(s, i, next, answer) else Left(s, i, next, answer)
    else if !a.PastGrace(t) then Left(s, i, next, answer)
    else if a.listed.None? then Threw(s, next, answer)
    else
      exists pick :: IsPick(t, Entries(a.listed.value), s.transfers, pick) && Recovered(s, i, pick, a.complete, next, answer)
  }

  ghost predicate Recovered(s: State, i: TransferId, pick: Option<VenueTransfer>, complete: bool, next: State,
                            answer: Option<TransferState>) {
    if pick.Some? then Viewed(s, i, pick.value, next, answer)
    else if complete then GivenUp(s, i, next, answer)
    else Left(s, i, next, answer)
  }

  method ApplyView(tx: Database, i: TransferId, v: VenueTransfer) returns (answer: Option<TransferState>)
    requires i < |tx.transfers|
    modifies tx
    ensures Viewed(old(tx.Contents()), i, v, tx.Contents(), answer)
  {
    var recorded := RecordVenueId(tx, i, v.id);
    if !recorded { return None; }
    var applied := ApplyVenueState(tx, i, v);
    return if applied then Some(tx.transfers[i].state) else None;
  }

  method GiveUp(tx: Database, i: TransferId) returns (answer: Option<TransferState>)
    requires i < |tx.transfers|
    modifies tx
    ensures GivenUp(old(tx.Contents()), i, tx.Contents(), answer)
  {
    var ok := Finish(tx, i, Failed);
    return Some(tx.transfers[i].state);
  }

  method SyncOne(tx: Database, i: TransferId, a: Answers) returns (answer: Option<TransferState>)
    requires i < |tx.transfers|
    modifies tx
    ensures Synced(old(tx.Contents()), i, a, tx.Contents(), answer)
  {
    hide Viewed, GivenUp, IsPick;
    var t := tx.transfers[i];
    if !tx.linked {
      if !a.PastGrace(t) { return Some(t.state); }
      answer := GiveUp(tx, i);
      return;
    }
    if t.venueId.Some? {
      var listed := if a.listed.Some? then Listed(a.listed.value, t.venueId.value) else None;
      if listed.Some? {
        answer := ApplyView(tx, i, listed.value);
        return;
      }
      match a.byId(t.venueId.value) {
        case Unreachable => return None;
        case There(v) => answer := ApplyView(tx, i, v);
        case NotThere =>
          if !a.PastGrace(t) { return Some(t.state); }
          answer := GiveUp(tx, i);
      }
      return;
    }
    if !a.PastGrace(t) { return Some(t.state); }
    if a.listed.None? { return None; }
    var pick := Pick(tx, t, a.listed.value);
    ghost var before := tx.Contents();
    if pick.Some? {
      answer := ApplyView(tx, i, pick.value);
    } else if a.complete {
      answer := GiveUp(tx, i);
    } else {
      answer := Some(t.state);
    }
    assert Recovered(before, i, pick, a.complete, tx.Contents(), answer);
  }

  // ---- what decides a row, in the figures themselves ----

  /** Past the grace window: the venue call that made the row is no longer in flight. */
  ghost predicate Late(a: Answers, t: Transfer) { a.now - t.createdAt > a.grace }

  /** It could be the row's transfer: direction, amount, and within five minutes of the row. */
  ghost predicate CouldBe(t: Transfer, v: VenueTransfer) {
    && v.direction == t.direction && v.amount == t.amount
    && t.createdAt - 300000 <= v.createdAt <= t.createdAt + 300000
  }

  /** No row has the venue transfer's id. */
  ghost predicate Unclaimed(rows: seq<Transfer>, v: VenueTransfer) { forall u <- rows :: u.venueId != Some(v.id) }

  /** Nearer in time to the row than any other unclaimed transfer it could be. */
  ghost predicate Nearest(t: Transfer, listed: seq<VenueTransfer>, rows: seq<Transfer>, v: VenueTransfer) {
    && v in listed && CouldBe(t, v) && Unclaimed(rows, v)
    && forall other <- listed | CouldBe(t, other) && Unclaimed(rows, other) ::
         Abs(v.createdAt - t.createdAt) <= Abs(other.createdAt - t.createdAt)
  }

  lemma PickIsNearest(t: Transfer, listed: seq<VenueTransfer>, rows: seq<Transfer>, pick: Option<VenueTransfer>)
    requires IsPick(t, Entries(listed), rows, pick)
    ensures pick.Some? ==> Nearest(t, listed, rows, pick.value)
    ensures pick.None? ==> forall v <- listed :: CouldBe(t, v) ==> !Unclaimed(rows, v)
  {
    forall v | v in listed
      ensures (CouldBe(t, v) <==> Candidate(t, v)) && (Unclaimed(rows, v) <==> !VenueIdLinked(rows, v.id))
    {
      if u :| u in rows && u.venueId == Some(v.id) { var j :| 0 <= j < |rows| && rows[j] == u; }
    }
  }

  /**
   * A PENDING row whose venue id was lost. Until it is late it stays as it is. Then it fails for want
   * of a transfer exactly when the listing is whole and everything it could be is claimed; it takes
   * the id of the nearest unclaimed one exactly when there is one; and else it waits.
   */
  lemma LostIdDecided(s: State, i: TransferId, a: Answers, next: State, answer: Option<TransferState>)
    requires s.linked && i < |s.transfers| && s.transfers[i].state.Pending? && s.transfers[i].venueId.None?
    requires Synced(s, i, a, next, answer)
    ensures |next.transfers| == |s.transfers|
    ensures !Late(a, s.transfers[i]) ==> next == s && answer == Some(Pending)
    ensures Late(a, s.transfers[i]) && a.listed.None? ==> next == s && answer.None?
    ensures next.transfers[i].venueId.None? && next.transfers[i].state.Failed? <==>
      && Late(a, s.transfers[i]) && a.listed.Some? && a.complete
      && forall v <- a.listed.value :: CouldBe(s.transfers[i], v) ==> !Unclaimed(s.transfers, v)
    ensures next.transfers[i].venueId.Some? <==>
      && Late(a, s.transfers[i]) && a.listed.Some?
      && exists v <- a.listed.value :: CouldBe(s.transfers[i], v) && Unclaimed(s.transfers, v)
    ensures next.transfers[i].venueId.Some? ==>
      exists v <- a.listed.value :: Nearest(s.transfers[i], a.listed.value, s.transfers, v)
        && next.transfers[i].venueId == Some(v.id)
    ensures next.transfers[i].venueId.None? && !next.transfers[i].state.Failed? ==> next == s
  {
    hide IsPick, CouldBe, Unclaimed, VenueStateApplied;
    var t := s.transfers[i];
    if Late(a, t) && a.listed.Some? {
      var pick :| IsPick(t, Entries(a.listed.value), s.transfers, pick) && Recovered(s, i, pick, a.complete, next, answer);
      PickIsNearest(t, a.listed.value, s.transfers, pick);
      if pick.Some? { ViewedLinks(s, i, pick.value, next, answer); }
    }
  }

  lemma ViewedLinks(s: State, i: TransferId, v: VenueTransfer, next: State, answer: Option<TransferState>)
    requires i < |s.transfers| && s.transfers[i].venueId.None? && Unclaimed(s.transfers, v) && Viewed(s, i, v, next, answer)
    ensures |next.transfers| == |s.transfers| && next.transfers[i].venueId == Some(v.id)
  {
    assert !VenueIdLinked(s.transfers, v.id);
  }

  /** A row with its venue id: the venue's record of it is applied; without one it fails once late. */
  lemma LinkedDecided(s: State, i: TransferId, a: Answers, next: State, answer: Option<TransferState>)
    requires s.linked && i < |s.transfers| && s.transfers[i].state.Pending? && s.transfers[i].venueId.Some?
    requires Synced(s, i, a, next, answer)
    ensures var id := s.transfers[i].venueId.value;
      if a.listed.Some? && exists v <- a.listed.value :: v.id == id then
        exists v <- a.listed.value :: v.id == id && next == Committed(s, VenueStateApplied(s, i, v))
      else
        match a.byId(id)
        case Unreachable => next == s && answer.None?
        case There(v) => next == Committed(s, VenueStateApplied(s, i, v))
        case NotThere => next == if Late(a, s.transfers[i]) then WithState(s, i, Failed, ByVenue) else s
  {
    hide VenueStateApplied, IsPick;
  }

  /** An account without a venue account: its rows fail once late. */
  lemma UnlinkedDecided(s: State, i: TransferId, a: Answers, next: State, answer: Option<TransferState>)
    requires !s.linked && i < |s.transfers| && s.transfers[i].state.Pending? && Synced(s, i, a, next, answer)
    ensures next == if Late(a, s.transfers[i]) then WithState(s, i, Failed, ByVenue) else s
  {
  }

  // ---- the pass ----

  datatype SweepResult = SweepResult(transfersChecked: nat, settled: nat, failed: nat, errors: nat)

  function IsSettled(t: Transfer): int { if t.state.Settled? then 1 else 0 }
  function IsFailed(t: Transfer): int { if t.state.Failed? || t.state.Canceled? then 1 else 0 }

  /** Only row i moved, and cash with what it settled. */
  ghost predicate OnlyRow(s: State, i: TransferId, next: State)
    requires i < |s.transfers|
  {
    && i < |next.transfers| && next.transfers == s.transfers[i := next.transfers[i]]
    && next == s.(transfers := next.transfers, ledger := next.ledger, cash := next.cash)
    && next.cash == s.cash + SettledAmount(next.transfers[i]) - SettledAmount(s.transfers[i])
  }

  lemma SyncedMovesOneRow(s: State, i: TransferId, a: Answers, next: State, answer: Option<TransferState>)
    requires i < |s.transfers| && s.transfers[i].state.Pending? && Synced(s, i, a, next, answer)
    ensures Moved(s, i, next, answer)
  {
    hide IsPick, Viewed, GivenUp, OnlyRow;
    forall v | Viewed(s, i, v, next, answer) ensures Moved(s, i, next, answer) { ViewedMoves(s, i, v, next, answer); }
    if GivenUp(s, i, next, answer) { GivenUpMoves(s, i, next, answer); }
    if next == s { StandingMoves(s, i); }
  }

  ghost predicate Moved(s: State, i: TransferId, next: State, answer: Option<TransferState>)
    requires i < |s.transfers|
  {
    OnlyRow(s, i, next) && next.transfers[i].state == if answer.Some? then answer.value else Pending
  }

  lemma ViewedMoves(s: State, i: TransferId, v: VenueTransfer, next: State, answer: Option<TransferState>)
    requires i < |s.transfers| && s.transfers[i].state.Pending? && Viewed(s, i, v, next, answer)
    ensures Moved(s, i, next, answer)
  {
    hide VenueIdRecorded, VenueStateApplied;
    if VenueIdRecorded(s, i, v.id).Commit? {
      var mid := VenueIdRecorded(s, i, v.id).state;
      RecordingMoves(s, i, v.id);
      if VenueStateApplied(mid, i, v).Commit? { ApplyingMoves(mid, i, v); }
    }
    StandingMoves(s, i);
  }

  lemma RecordingMoves(s: State, i: TransferId, id: VenueId)
    requires i < |s.transfers| && VenueIdRecorded(s, i, id).Commit?
    ensures var mid := VenueIdRecorded(s, i, id).state;
      OnlyRow(s, i, mid) && mid.transfers[i].state == s.transfers[i].state && mid.cash == s.cash
  {
  }

  lemma ApplyingMoves(s: State, i: TransferId, v: VenueTransfer)
    requires i < |s.transfers| && VenueStateApplied(s, i, v).Commit?
    ensures OnlyRow(s, i, VenueStateApplied(s, i, v).state)
  {
  }

  lemma GivenUpMoves(s: State, i: TransferId, next: State, answer: Option<TransferState>)
    requires i < |s.transfers| && s.transfers[i].state.Pending? && GivenUp(s, i, next, answer)
    ensures Moved(s, i, next, answer)
  {
  }

  lemma StandingMoves(s: State, i: TransferId)
    requires i < |s.transfers|
    ensures OnlyRow(s, i, s)
  {
  }

  /** listPendingForAccount. */
  function PendingIds(rows: seq<Transfer>): (ids: seq<TransferId>)
    ensures forall i: nat :: i in ids <==> i < |rows| && rows[i].state.Pending?
    ensures forall j, k | 0 <= j < k < |ids| :: ids[j] < ids[k]
  {
    if rows == [] then []
    else
      var n := |rows| - 1;
      var before := PendingIds(rows[..n]);
      assert forall k | 0 <= k < |before| :: before[k] in before;
      before + if rows[n].state.Pending? then [n] else []
  }

  function IsError(answer: Option<TransferState>): int { if answer.None? then 1 else 0 }

  /** The pass row by row: `states` are the account's before and after each, `answers` what each came to. */
  ghost predicate Traced(a: Answers, ids: seq<TransferId>, states: seq<State>, answers: seq<Option<TransferState>>) {
    && |answers| == |ids| && |states| == |ids| + 1
    && forall k | 0 <= k < |ids| ::
         ids[k] < |states[k].transfers| && Synced(states[k], ids[k], a, states[k + 1], answers[k])
  }

  /** What the counters say once the rows `ids` are dealt with. */
  ghost predicate Tallies(s: State, ids: seq<TransferId>, next: State, out: SweepResult) {
    && |next.transfers| == |s.transfers|
    && (forall i: nat | i < |s.transfers| && i !in ids :: next.transfers[i] == s.transfers[i])
    && next == s.(transfers := next.transfers, ledger := next.ledger, cash := next.cash)
    && out.transfersChecked == |ids|
    && SumOf(next.transfers, IsSettled) == SumOf(s.transfers, IsSettled) + out.settled
    && SumOf(next.transfers, IsFailed) == SumOf(s.transfers, IsFailed) + out.failed
    && next.cash - SumOf(next.transfers, SettledAmount) == s.cash - SumOf(s.transfers, SettledAmount)
  }

  function Counted(out: SweepResult, answer: Option<TransferState>): SweepResult {
    SweepResult(out.transfersChecked + 1,
      out.settled + if answer == Some(Settled) then 1 else 0,
      out.failed + if answer == Some(Failed) || answer == Some(Canceled) then 1 else 0,
      out.errors + IsError(answer))
  }

  lemma OneMore(s: State, ids: seq<TransferId>, i: TransferId, mid: State, out: SweepResult, next: State,
                answer: Option<TransferState>)
    requires Tallies(s, ids, mid, out) && i < |s.transfers| && i !in ids && s.transfers[i].state.Pending?
    requires Moved(mid, i, next, answer)
    ensures Tallies(s, ids + [i], next, Counted(out, answer))
  {
    hide SumOf, IsError;
    var row := next.transfers[i];
    SumUpdate(mid.transfers, i, row, IsSettled);
    SumUpdate(mid.transfers, i, row, IsFailed);
    SumUpdate(mid.transfers, i, row, SettledAmount);
  }

  lemma TraceExtends(a: Answers, ids: seq<TransferId>, states: seq<State>, answers: seq<Option<TransferState>>,
                     i: TransferId, next: State, answer: Option<TransferState>)
    requires Traced(a, ids, states, answers) && i < |states[|ids|].transfers| && Synced(states[|ids|], i, a, next, answer)
    ensures Traced(a, ids + [i], states + [next], answers + [answer])
  {
    hide Synced;
  }

  /** One error for a listing that failed, when there was anything to list for. */
  function ListingError(s: State, a: Answers): nat {
    if PendingIds(s.transfers) != [] && s.linked && a.listed.None? then 1 else 0
  }

  /** A pass that has dealt with the rows `ids`. */
  ghost predicate PassSoFar(s: State, a: Answers, ids: seq<TransferId>, states: seq<State>,
                            answers: seq<Option<TransferState>>, now: State, out: SweepResult) {
    && Traced(a, ids, states, answers) && states[0] == s && states[|ids|] == now
    && Tallies(s, ids, now, out)
    && out.errors == ListingError(s, a) + SumOf(answers, IsError)
  }

  /**
   * syncPending: each row that was PENDING is synced once, one after the other, and the counters say
   * what that changed: as many rows were settled and failed, no other row moved, cash moved by what
   * settled, and every row that threw, and the listing if it failed, is an error.
   */
  method SyncPending(tx: Database, a: Answers)
    returns (out: SweepResult, ghost states: seq<State>, ghost answers: seq<Option<TransferState>>)
    modifies tx
    ensures PassSoFar(old(tx.Contents()), a, PendingIds(old(tx.transfers)), states, answers, tx.Contents(), out)
    ensures out.errors == |Where(answers, WithoutAnswer)| +
      if old(tx.linked) && a.listed.None? && exists t <- old(tx.transfers) :: t.state.Pending? then 1 else 0
  {
    hide Synced, PassSoFar, PendingIds, Counted;
    ghost var s := tx.Contents();
    ghost var rows := tx.transfers;
    var pending := PendingIds(tx.transfers);
    states, answers := [s], [];
    out := SweepResult(0, 0, 0, if pending != [] && tx.linked && a.listed.None? then 1 else 0);
    NothingYet(s, a, out);
    AnyPending(rows);
    if pending == [] { return; }
    var k := 0;
    while k < |pending|
      invariant k <= |pending| && PassSoFar(s, a, pending[..k], states, answers, tx.Contents(), out)
    {
      var i := pending[k];
      PendingAt(rows, k);
      ghost var mid := tx.Contents();
      StillThere(s, a, pending[..k], states, answers, mid, out, i);
      var answer := SyncOne(tx, i, a);
      ghost var next := tx.Contents();
      PassExtends(s, a, pending[..k], states, answers, mid, out, i, next, answer);
      assert pending[..k] + [i] == pending[..k + 1];
      out, k := Counted(out, answer), k + 1;
      states, answers := states + [next], answers + [answer];
    }
    assert pending[..k] == pending;
    ErrorsCounted(s, a, pending, states, answers, tx.Contents(), out);
  }

  predicate WithoutAnswer(answer: Option<TransferState>) { answer.None? }

  lemma {:induction false} ErrorsAre(answers: seq<Option<TransferState>>)
    ensures SumOf(answers, IsError) == |Where(answers, WithoutAnswer)|
  {
    if answers != [] { ErrorsAre(answers[..|answers| - 1]); }
  }

  lemma ErrorsCounted(s: State, a: Answers, ids: seq<TransferId>, states: seq<State>, answers: seq<Option<TransferState>>,
                      now: State, out: SweepResult)
    requires PassSoFar(s, a, ids, states, answers, now, out)
    ensures out.errors == ListingError(s, a) + |Where(answers, WithoutAnswer)|
  {
    hide Synced, SumOf, Where, Tallies;
    ErrorsAre(answers);
  }

  lemma AnyPending(rows: seq<Transfer>)
    ensures PendingIds(rows) == [] <==> forall t <- rows :: !t.state.Pending?
  {
    hide PendingIds;
    if PendingIds(rows) != [] {
      assert PendingIds(rows)[0] in PendingIds(rows);
      assert rows[PendingIds(rows)[0]] in rows;
    } else {
      assert forall i: nat | i < |rows| :: i !in PendingIds(rows);
    }
  }

  lemma PendingAt(rows: seq<Transfer>, k: nat)
    requires k < |PendingIds(rows)|
    ensures var ids := PendingIds(rows); ids[k] < |rows| && rows[ids[k]].state.Pending? && ids[k] !in ids[..k]
  {
    assert PendingIds(rows)[k] in PendingIds(rows);
  }

  lemma NothingYet(s: State, a: Answers, out: SweepResult)
    requires out == SweepResult(0, 0, 0, if PendingIds(s.transfers) != [] && s.linked && a.listed.None? then 1 else 0)
    ensures PassSoFar(s, a, [], [s], [], s, out)
  {
  }

  lemma StillThere(s: State, a: Answers, ids: seq<TransferId>, states: seq<State>, answers: seq<Option<TransferState>>,
                   mid: State, out: SweepResult, i: TransferId)
    requires PassSoFar(s, a, ids, states, answers, mid, out) && i < |s.transfers|
    ensures i < |mid.transfers|
  {
    hide SumOf, Synced;
  }

  lemma PassExtends(s: State, a: Answers, ids: seq<TransferId>, states: seq<State>, answers: seq<Option<TransferState>>,
                    mid: State, out: SweepResult, i: TransferId, next: State, answer: Option<TransferState>)
    requires PassSoFar(s, a, ids, states, answers, mid, out)
    requires i < |s.transfers| && i !in ids && s.transfers[i].state.Pending?
    requires i < |mid.transfers| && Synced(mid, i, a, next, answer)
    ensures PassSoFar(s, a, ids + [i], states + [next], answers + [answer], next, Counted(out, answer))
  {
    hide SumOf, Synced, Moved, SettledAmount, IsSettled, IsFailed, IsError;
    SyncedMovesOneRow(mid, i, a, next, answer);
    OneMore(s, ids, i, mid, out, next, answer);
    TraceExtends(a, ids, states, answers, i, next, answer);
    SumAppend(answers, answer, IsError);
  }

  // ---- the watch over transfers a reset canceled ----

  /** RESET_WATCH_MS: seven days. */
  const RESET_WATCH: nat := 604800000

  /** A canceled transfer the venue may still settle, and nobody has stamped yet. */
  predicate Watched(t: Transfer, now: int) {
    t.state.Canceled? && t.venueId.Some? && (t.reason.ByReset? || t.reason.ByInactive?) && now - RESET_WATCH <= t.createdAt
  }

  /** What the venue has finally done with a watched transfer, if it has. */
  function Verdict(t: Transfer, now: int, byId: VenueId -> Lookup): Option<bool> {
    if Watched(t, now) && byId(t.venueId.value).There? && !byId(t.venueId.value).view.state.VenuePending? then
      Some(byId(t.venueId.value).view.state.VenueSettled?)
    else None
  }

  function Stamped(t: Transfer, verdict: Option<bool>): Transfer {
    if verdict.None? then t else t.(reason := if verdict.value then SettledAnyway else ConfirmedNeverSettled)
  }

  function Diverges(now: int, byId: VenueId -> Lookup): Transfer -> int {
    (t: Transfer) => if Verdict(t, now, byId) == Some(true) then 1 else 0
  }

  function Unanswered(now: int, byId: VenueId -> Lookup): Transfer -> int {
    (t: Transfer) => if Watched(t, now) && byId(t.venueId.value).Unreachable? then 1 else 0
  }

  /**
   * A row is stamped exactly when a reset or an inactive account canceled it within seven days and
   * the venue has since settled or failed its transfer, with which of the two it was.
   */
  lemma WatchSays(t: Transfer, now: int, byId: VenueId -> Lookup)
    ensures
      var watched := t.state.Canceled? && t.venueId.Some? && (t.reason.ByReset? || t.reason.ByInactive?)
                     && now - t.createdAt <= 7 * 24 * 3600 * 1000;
      var found := if watched then byId(t.venueId.value) else NotThere;
      && Stamped(t, Verdict(t, now, byId)) ==
           (if found.There? && found.view.state.VenueSettled? then t.(reason := SettledAnyway)
            else if found.There? && found.view.state.VenueFailed? then t.(reason := ConfirmedNeverSettled)
            else t)
      && Diverges(now, byId)(t) == (if found.There? && found.view.state.VenueSettled? then 1 else 0)
      && Unanswered(now, byId)(t) == (if found.Unreachable? then 1 else 0)
  {
  }

  lemma SumOneMore(rows: seq<Transfer>, i: nat, f: Transfer -> int)
    requires i < |rows|
    ensures SumOf(rows[..i + 1], f) == SumOf(rows[..i], f) + f(rows[i])
  {
    assert rows[..i + 1] == rows[..i] + [rows[i]];
    SumAppend(rows[..i], rows[i], f);
  }

  /**
   * watchCanceledByReset: exactly the watched rows the venue has decided are stamped with what it
   * did, no money moves, and the counters are how many it settled anyway and how many lookups failed.
   */
  method WatchCanceledByReset(tx: Database, now: int, byId: VenueId -> Lookup) returns (diverged: nat, errors: nat)
    modifies tx
    ensures !old(tx.linked) ==> tx.Contents() == old(tx.Contents()) && diverged == errors == 0
    ensures old(tx.linked) ==> tx.Contents() == old(tx.Contents()).(transfers :=
      seq(|old(tx.transfers)|, i requires 0 <= i < |old(tx.transfers)| =>
        Stamped(old(tx.transfers)[i], Verdict(old(tx.transfers)[i], now, byId))))
    ensures old(tx.linked) ==> diverged == SumOf(old(tx.transfers), Diverges(now, byId))
    ensures old(tx.linked) ==> errors == SumOf(old(tx.transfers), Unanswered(now, byId))
  {
    hide SumOf;
    ghost var rows := tx.transfers;
    diverged, errors := 0, 0;
    if !tx.linked { return; }
    var i := 0;
    SumsOfNothing(now, byId);
    while i < |tx.transfers|
      invariant i <= |tx.transfers| == |rows|
      invariant tx.Contents() == old(tx.Contents()).(transfers := tx.transfers)
      invariant diverged == SumOf(rows[..i], Diverges(now, byId)) && errors == SumOf(rows[..i], Unanswered(now, byId))
      invariant forall k | 0 <= k < |rows| ::
        tx.transfers[k] == if k < i then Stamped(rows[k], Verdict(rows[k], now, byId)) else rows[k]
    {
      SumOneMore(rows, i, Diverges(now, byId));
      SumOneMore(rows, i, Unanswered(now, byId));
      var t := tx.transfers[i];
      if Watched(t, now) {
        match byId(t.venueId.value) {
          case Unreachable => errors := errors + 1;
          case NotThere =>
          case There(v) =>
            if !v.state.VenuePending? {
              WatchCanceled(tx, i, v.state.VenueSettled?);
              if v.state.VenueSettled? { diverged := diverged + 1; }
            }
        }
      }
      i := i + 1;
    }
    assert rows[..i] == rows;
  }

  lemma SumsOfNothing(now: int, byId: VenueId -> Lookup)
    ensures SumOf([], Diverges(now, byId)) == 0 == SumOf([], Unanswered(now, byId))
  {
  }
}

/** One row's sync is a stretch of the two-party protocol: what `syncOne` writes, the protocol allows. */
module SyncProtocol {
  import opened Wrappers
  import opened MoneyMath
  import opened OrderMachine
  import opened Rows
  import opened Transfers
  import opened Recovery
  import opened LostAnswers
  import opened TransferSync

  /** Every act may happen when it does. */
  ghost predicate AllEnabled(c: Setup, w: World, acts: seq<Act>) {
    acts == [] ||
      var n := |acts| - 1;
      AllEnabled(c, w, acts[..n]) && Enabled(c, Play(c, w, acts[..n]), acts[n])
  }

  lemma {:induction false} EnabledThenPlay(c: Setup, w: World, a: Act, rest: seq<Act>)
    requires Enabled(c, w, a) && AllEnabled(c, After(c, w, a), rest)
    ensures AllEnabled(c, w, [a] + rest)
  {
    hide After, Enabled;
    var acts := [a] + rest;
    if rest == [] {
      assert acts == [a] && [a][..0] == [];
    } else {
      var n := |rest| - 1;
      EnabledThenPlay(c, w, a, rest[..n]);
      StepThenPlay(c, w, a, rest[..n]);
      assert acts[..|rest|] == [a] + rest[..n];
    }
  }

  /** The pass's answers are the venue's: a fresh listing, and lookups that say what the venue has. */
  ghost predicate Truthful(c: Setup, w: World, p: Pass, a: Answers) {
    && a.now == w.now && a.grace == c.grace && p in w.passes
    && (a.listed.Some? ==>
      && p.listing.Some? && p.listing.value.entries == Entries(a.listed.value) && p.listing.value.complete == a.complete
      && w.now - p.listing.value.at <= c.grace - WINDOW)
    && forall id: VenueId ::
         match a.byId(id)
         case There(v) => v.id == id && Some(v) in w.venue
         case NotThere => !IdTaken(w.venue, id)
         case Unreachable => true
  }

  /** One act that keeps what the guards ask for. */
  lemma OneAct(c: Setup, w: World, a: Act)
    requires Inv(c, w) && Guarded(w, a)
    ensures Inv(c, After(c, w, a))
  {
    hide Inv, Guarded, Careful, After;
    GuardsSuffice(c, w, a);
    StepKeeps(c, w, a);
  }

  /** An act, and then the rest. */
  lemma ActThenRest(c: Setup, w: World, a: Act, rest: seq<Act>)
    requires Enabled(c, w, a) && AllEnabled(c, After(c, w, a), rest)
    ensures AllEnabled(c, w, [a] + rest) && Play(c, w, [a] + rest) == Play(c, After(c, w, a), rest)
  {
    EnabledThenPlay(c, w, a, rest);
    StepThenPlay(c, w, a, rest);
  }

  lemma Recording(c: Setup, w: World, i: TransferId, v: VenueTransfer)
    requires Report(i, v) in w.intents && i < |w.s.transfers| && w.s.transfers[i].state.Pending?
    ensures Enabled(c, w, RecordId(i, v)) && Guarded(w, RecordId(i, v))
    ensures After(c, w, RecordId(i, v)) == w.(s := Committed(w.s, VenueIdRecorded(w.s, i, v.id)))
  {
  }

  lemma Applying(c: Setup, w: World, i: TransferId, v: VenueTransfer)
    requires Report(i, v) in w.intents && i < |w.s.transfers| && w.s.transfers[i].venueId == Some(v.id)
    ensures Enabled(c, w, ApplyState(i, v)) && Guarded(w, ApplyState(i, v))
    ensures After(c, w, ApplyState(i, v)) == w.(s := Committed(w.s, VenueStateApplied(w.s, i, v)))
  {
  }

  lemma RecordingLinks(s: State, i: TransferId, v: VenueTransfer)
    requires i < |s.transfers| && (s.transfers[i].venueId.Some? ==> s.transfers[i].venueId.value == v.id)
    requires VenueIdRecorded(s, i, v.id).Commit?
    ensures var mid := VenueIdRecorded(s, i, v.id).state;
      |mid.transfers| == |s.transfers| && mid.transfers[i].venueId == Some(v.id)
  {
  }

  /** A view on its way is recorded and then applied. */
  lemma ViewIsApplied(c: Setup, w: World, i: TransferId, v: VenueTransfer, next: State, answer: Option<TransferState>)
    returns (acts: seq<Act>)
    requires Inv(c, w) && i < |w.s.transfers| && w.s.transfers[i].state.Pending? && Report(i, v) in w.intents
    requires w.s.transfers[i].venueId.Some? ==> w.s.transfers[i].venueId.value == v.id
    requires Viewed(w.s, i, v, next, answer)
    ensures |acts| <= 2 && AllEnabled(c, w, acts) && Play(c, w, acts).s == next && Inv(c, Play(c, w, acts))
  {
    hide Inv, After, Enabled, Guarded, VenueIdRecorded, VenueStateApplied;
    var record, apply := RecordId(i, v), ApplyState(i, v);
    Recording(c, w, i, v);
    OneAct(c, w, record);
    var mid := After(c, w, record);
    var rest: seq<Act> := [];
    if VenueIdRecorded(w.s, i, v.id).Commit? {
      RecordingLinks(w.s, i, v);
      Applying(c, mid, i, v);
      OneAct(c, mid, apply);
      rest := [apply] + [];
      ActThenRest(c, mid, apply, []);
    }
    ActThenRest(c, w, record, rest);
    acts := [record] + rest;
  }

  /** The record of a linked row that a truthful lookup brings is the row's own. */
  lemma LookupIsOwn(c: Setup, w: World, p: Pass, i: TransferId, a: Answers)
    requires Inv(c, w) && Truthful(c, w, p, a) && i < |w.s.transfers| && w.s.transfers[i].venueId.Some?
    ensures i < |w.venue| && w.venue[i].Some? && !a.byId(w.s.transfers[i].venueId.value).NotThere?
    ensures var found := a.byId(w.s.transfers[i].venueId.value); found.There? ==> found.view == w.venue[i].value
  {
    hide Unambiguous, KnowledgeOk;
    assert RowOk(w.now, w.s.transfers[i], w.venue[i], i in w.refused);
    var id := w.s.transfers[i].venueId.value;
    assert IdTaken(w.venue, id);
    if a.byId(id).There? {
      var k :| 0 <= k < |w.venue| && w.venue[k] == Some(a.byId(id).view);
    }
  }

  /**
   * With truthful answers and nothing in between, whatever syncOne leaves of a PENDING row is what at
   * most three acts of the protocol leave, each of them enabled when it happens, and the invariant
   * holds after them.
   */
  lemma SyncIsAllowed(c: Setup, w: World, p: Pass, i: TransferId, a: Answers, next: State, answer: Option<TransferState>)
    returns (acts: seq<Act>)
    requires c.Valid() && Inv(c, w) && w.s.linked && Truthful(c, w, p, a)
    requires i < |p.rows| && i < |w.s.transfers| && p.rows[i] == w.s.transfers[i] && w.s.transfers[i].state.Pending?
    requires Synced(w.s, i, a, next, answer)
    ensures |acts| <= 3 && AllEnabled(c, w, acts) && Play(c, w, acts).s == next && Inv(c, Play(c, w, acts))
  {
    if w.s.transfers[i].venueId.Some? {
      acts := LinkedIsAllowed(c, w, p, i, a, next, answer);
    } else {
      acts := LostIsAllowed(c, w, p, i, a, next, answer);
    }
  }

  lemma LinkedIsAllowed(c: Setup, w: World, p: Pass, i: TransferId, a: Answers, next: State, answer: Option<TransferState>)
    returns (acts: seq<Act>)
    requires Inv(c, w) && w.s.linked && Truthful(c, w, p, a)
    requires i < |p.rows| && i < |w.s.transfers| && p.rows[i] == w.s.transfers[i] && w.s.transfers[i].state.Pending?
    requires w.s.transfers[i].venueId.Some? && Synced(w.s, i, a, next, answer)
    ensures |acts| <= 3 && AllEnabled(c, w, acts) && Play(c, w, acts).s == next && Inv(c, Play(c, w, acts))
  {
    hide Inv, Viewed, IdTaken;
    var id := w.s.transfers[i].venueId.value;
    var listed := if a.listed.Some? then Listed(a.listed.value, id) else None;
    LookupIsOwn(c, w, p, i, a);
    acts := [];
    if listed.Some? || a.byId(id).There? {
      var learn := if listed.Some? then ReadListed(p, i, listed.value) else Answer(i);
      var view := if listed.Some? then listed.value else a.byId(id).view;
      OneAct(c, w, learn);
      var known := After(c, w, learn);
      assert known == w.(intents := w.intents + {Report(i, view)});
      var rest := ViewIsApplied(c, known, i, view, next, answer);
      ActThenRest(c, w, learn, rest);
      acts := [learn] + rest;
    }
  }

  lemma LostIsAllowed(c: Setup, w: World, p: Pass, i: TransferId, a: Answers, next: State, answer: Option<TransferState>)
    returns (acts: seq<Act>)
    requires c.Valid() && Inv(c, w) && w.s.linked && Truthful(c, w, p, a)
    requires i < |p.rows| && i < |w.s.transfers| && p.rows[i] == w.s.transfers[i] && w.s.transfers[i].state.Pending?
    requires w.s.transfers[i].venueId.None? && Synced(w.s, i, a, next, answer)
    ensures |acts| <= 3 && AllEnabled(c, w, acts) && Play(c, w, acts).s == next && Inv(c, Play(c, w, acts))
  {
    hide Inv, Viewed, IsPick, VenueStateApplied, VenueIdRecorded, ListingOf;
    acts := [];
    if a.PastGrace(w.s.transfers[i]) && a.listed.Some? {
      var pick :| IsPick(w.s.transfers[i], Entries(a.listed.value), w.s.transfers, pick)
        && Recovered(w.s, i, pick, a.complete, next, answer);
      if pick.Some? || a.complete {
        var learn := Recover(p, i, pick);
        OneAct(c, w, learn);
        var known := After(c, w, learn);
        if pick.Some? {
          var rest := ViewIsApplied(c, known, i, pick.value, next, answer);
          ActThenRest(c, w, learn, rest);
          acts := [learn] + rest;
        } else {
          var finish := Act.Finish(i);
          OneAct(c, known, finish);
          ActThenRest(c, known, finish, []);
          ActThenRest(c, w, learn, [finish] + []);
          acts := [learn] + ([finish] + []);
        }
      }
    }
  }
}

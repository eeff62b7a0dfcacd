/** Which venue transfer a row with a lost id is matched to. */
module Recovery {
  import opened Wrappers
  import opened MoneyMath
  import opened OrderMachine
  import opened Rows
  import opened Transfers

  /** RECOVERY_WINDOW_MS. */
  const WINDOW: nat := 300000

  /** What one listing call brought back, and when; incomplete when some of the venue's rows were unreadable. */
  datatype Listing = Listing(at: int, entries: set<VenueTransfer>, complete: bool)

  function Distance(t: Transfer, v: VenueTransfer): nat {
    if v.createdAt < t.createdAt then t.createdAt - v.createdAt else v.createdAt - t.createdAt
  }

  predicate Candidate(t: Transfer, v: VenueTransfer) {
    v.direction == t.direction && v.amount == t.amount && Distance(t, v) <= WINDOW
  }

  /** The closest candidate no row is linked to yet; none when there is no such candidate. */
  ghost predicate IsPick(t: Transfer, entries: set<VenueTransfer>, rows: seq<Transfer>, pick: Option<VenueTransfer>) {
    match pick
    case Some(v) =>
      && v in entries && Candidate(t, v) && !VenueIdLinked(rows, v.id)
      && forall other <- entries :: Candidate(t, other) && !VenueIdLinked(rows, other.id) ==> Distance(t, v) <= Distance(t, other)
    case None => forall other <- entries :: Candidate(t, other) ==> VenueIdLinked(rows, other.id)
  }
}

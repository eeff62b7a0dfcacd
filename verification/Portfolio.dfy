/** Realized P&L by replaying the fills, and its agreement with the fill-by-fill bookkeeping. */
module Portfolio {
  import opened Wrappers
  import opened StableSort
  import opened MoneyMath
  import opened OrderMachine
  import opened Rows
  import opened Accounting
  import opened ExecutionService

  /** The replay's book, and the P&L realized so far. */
  datatype Book = Book(positions: map<InstrumentId, Position>, realized: Money)

  /** What one fill makes of an instrument's entry, and the P&L it realizes. */
  datatype Turned = Turned(position: Position, gain: Money)

  /** One turn of the loop in realizedPnl; None where a guard throws. */
  function Turn(entry: Position, f: Fill): Option<Turned> {
    if f.side.Buy? then
      var basis := entry.basis + 100 * f.notional;
      if basis < 0 || basis + 100 * f.fee < 0 then None
      else Some(Turned(Position(entry.qty + f.qty, basis + 100 * f.fee), 0))
    else if entry.qty < f.qty then None
    else
      match Allocate(entry.basis, f.qty, entry.qty)
      case None => None
      case Some(a) => Some(Turned(Position(entry.qty - f.qty, a.remaining), f.notional - f.fee - a.share))
  }

  function EntryOf(positions: map<InstrumentId, Position>, i: InstrumentId): Position {
    if i in positions then positions[i] else Position(0, 0)
  }

  function ReplayOne(b: Book, f: Fill): Option<Book> {
    match Turn(EntryOf(b.positions, f.instrument), f)
    case None => None
    case Some(t) => Some(Book(b.positions[f.instrument := t.position], b.realized + t.gain))
  }

  function Then(b: Option<Book>, f: Fill): Option<Book> {
    match b
    case None => None
    case Some(book) => ReplayOne(book, f)
  }

  function Replay(fills: seq<Fill>): Option<Book> {
    if fills == [] then Some(Book(map[], 0)) else Then(Replay(fills[..|fills| - 1]), fills[|fills| - 1])
  }

  function FillTime(f: Fill): int { f.at }

  /** The fills as the page replays them: by execution time, and as they were inserted where that ties. */
  function Chronological(fills: seq<Fill>): seq<Fill> { SortedBy(fills, FillTime) }

  /** PortfolioService.realizedPnl over the fills table: None where the replay guard throws. */
  method RealizedPnl(table: seq<Fill>) returns (realized: Option<Money>)
    ensures realized.Some? <==> Replay(Chronological(table)).Some?
    ensures realized.Some? ==> realized.value == Replay(Chronological(table)).value.realized
  {
    hide Allocate, Chronological;
    var fills := Chronological(table);
    var book: map<InstrumentId, Position> := map[];
    var total, i := 0, 0;
    while i < |fills|
      invariant i <= |fills|
      invariant Replay(fills[..i]) == Some(Book(book, total))
    {
      assert fills[..i + 1][..i] == fills[..i];
      var fill := fills[i];
      var entry := EntryOf(book, fill.instrument);
      if fill.side.Buy? {
        var basis := entry.basis + 100 * fill.notional;
        if basis < 0 || basis + 100 * fill.fee < 0 {
          ReplayStuck(fills, i + 1);
          return None;
        }
        entry := Position(entry.qty + fill.qty, basis + 100 * fill.fee);
      } else {
        if entry.qty < fill.qty {
          ReplayStuck(fills, i + 1);
          return None;
        }
        var a := Allocate(entry.basis, fill.qty, entry.qty);
        if a.None? {
          ReplayStuck(fills, i + 1);
          return None;
        }
        total := total + (fill.notional - fill.fee - a.value.share);
        entry := Position(entry.qty - fill.qty, a.value.remaining);
      }
      book := book[fill.instrument := entry];
      i := i + 1;
    }
    assert fills[..i] == fills;
    return Some(total);
  }

  lemma {:induction false} ReplayStuck(fills: seq<Fill>, n: nat)
    requires n <= |fills| && Replay(fills[..n]).None?
    ensures Replay(fills).None?
    decreases |fills| - n
  {
    if n == |fills| {
      assert fills[..n] == fills;
    } else {
      assert fills[..n + 1][..n] == fills[..n];
      ReplayStuck(fills, n + 1);
    }
  }

  /** The P&L applySellFill reports for a fill that meets `current`; a buy realizes nothing. */
  function RealizedBy(current: Option<Position>, f: Fill): Money {
    if f.side.Buy? then 0
    else
      match SellFill(current, f.qty, f.notional, f.fee)
      case None => 0
      case Some(sale) => sale.realized
  }

  /** One fill booked: applyBuyFill or applySellFill on the stored position. */
  function TallyOne(b: Book, f: Fill): Option<Book> {
    var current := Lookup(b.positions, f.instrument);
    match Repositioned(current, f.side, f.qty, f.notional, f.fee)
    case None => None
    case Some(next) => Some(Book(b.positions[f.instrument := next], b.realized + RealizedBy(current, f)))
  }

  /** The bookkeeping fold: the positions each fill leaves, and the sum of applySellFill's P&L. */
  function Tallied(fills: seq<Fill>): Option<Book> {
    if fills == [] then Some(Book(map[], 0))
    else
      match Tallied(fills[..|fills| - 1])
      case None => None
      case Some(b) => TallyOne(b, fills[|fills| - 1])
  }

  lemma OneTurnAgrees(b: Book, f: Fill)
    requires 0 < f.qty
    ensures ReplayOne(b, f) == TallyOne(b, f)
  {
    hide Allocate;
  }

  /**
   * On the same fills in the same order replay and bookkeeping are the same computation: the replay
   * throws exactly when the bookkeeping did, and otherwise rebuilds every position and the sum of
   * the per-sale P&L.
   */
  lemma {:induction false} ReplayIsBookkeeping(fills: seq<Fill>)
    requires forall i | 0 <= i < |fills| :: 0 < fills[i].qty
    ensures Replay(fills) == Tallied(fills)
  {
    hide ReplayOne, TallyOne;
    if fills != [] {
      var before := fills[..|fills| - 1];
      ReplayIsBookkeeping(before);
      if Replay(before).Some? { OneTurnAgrees(Replay(before).value, fills[|fills| - 1]); }
    }
  }

  // ---- the order of execution against the order of booking ----

  /** The fills of each instrument were booked in the order the venue executed them. */
  ghost predicate BookedInOrder(fills: seq<Fill>) {
    forall i, j | 0 <= i < j < |fills| && fills[i].instrument == fills[j].instrument :: fills[i].at <= fills[j].at
  }

  /** Fills of different instruments may change places. */
  lemma TurnsCommute(b: Option<Book>, f: Fill, g: Fill)
    requires f.instrument != g.instrument
    ensures Then(Then(b, f), g) == Then(Then(b, g), f)
  {
    hide Turn;
    if b.Some? && Then(b, f).Some? && Then(b, g).Some? {
      var x, y := Then(Then(b, f), g), Then(Then(b, g), f);
      assert x.Some? && y.Some? && x.value.positions == y.value.positions;
    }
  }

  lemma {:induction false} ReplayInserted(sorted: seq<Fill>, f: Fill)
    requires forall g <- sorted :: f.at < g.at ==> g.instrument != f.instrument
    ensures Replay(Inserted(sorted, FillTime, f)) == Then(Replay(sorted), f)
  {
    if sorted == [] || sorted[|sorted| - 1].at <= f.at {
      assert (sorted + [f])[..|sorted|] == sorted;
    } else {
      var rest, last := sorted[..|sorted| - 1], sorted[|sorted| - 1];
      assert last in sorted;
      ReplayInserted(rest, f);
      var before := Inserted(rest, FillTime, f);
      hide Then, Inserted;
      assert (before + [last])[..|before|] == before;
      TurnsCommute(Replay(rest), f, last);
    }
  }

  /** Then the page's replay, which sorts by execution time, is the replay in booking order. */
  lemma {:induction false} ChronologyAgrees(fills: seq<Fill>)
    requires BookedInOrder(fills)
    ensures Replay(Chronological(fills)) == Replay(fills)
  {
    if fills != [] {
      var rest, last := fills[..|fills| - 1], fills[|fills| - 1];
      ChronologyAgrees(rest);
      SortedAscends(rest, FillTime);
      forall g <- Chronological(rest) ensures last.at < g.at ==> g.instrument != last.instrument {
        assert g in multiset(rest);
        var k :| 0 <= k < |rest| && rest[k] == g;
        assert fills[k] == g;
      }
      ReplayInserted(Chronological(rest), last);
    }
  }
}

/** The equity series over its rows: what each point, the grid and a failure say of fills, entries and candles. */
module EquityPoints {
  import opened Wrappers
  import opened Sums
  import opened MoneyMath
  import opened OrderMachine
  import opened EquitySeries

  // ---- rows up to a moment ----

  function EntryBy(t: int, inclusive: bool): EntryAt -> bool { (e: EntryAt) => e.at < t || (inclusive && e.at == t) }
  function FlowBy(t: int, inclusive: bool): EntryAt -> bool {
    (e: EntryAt) => e.external && (e.at < t || (inclusive && e.at == t))
  }
  function IsFlow(): EntryAt -> bool { (e: EntryAt) => e.external }
  function FillBy(t: int, inclusive: bool): FillAt -> bool { (f: FillAt) => f.at < t || (inclusive && f.at == t) }
  function BuyOf(s: Symbol): FillAt -> bool { (f: FillAt) => f.symbol == s && f.side.Buy? }
  function SaleOf(s: Symbol): FillAt -> bool { (f: FillAt) => f.symbol == s && f.side.Sell? }
  function EntryAmount(e: EntryAt): int { e.amount }
  function FillQty(f: FillAt): int { f.qty }

  /** Shares bought less shares sold. */
  function NetShares(fills: seq<FillAt>, s: Symbol): int {
    SumOf(Where(fills, BuyOf(s)), FillQty) - SumOf(Where(fills, SaleOf(s)), FillQty)
  }

  function Shares(fills: seq<FillAt>, s: Symbol, t: int, inclusive: bool): int {
    NetShares(Where(fills, FillBy(t, inclusive)), s)
  }

  /** The window starts at the lookback or at the account's creation, whichever is later. */
  function Later(a: int, b: int): int { if a <= b then b else a }

  /** Held as the window starts, or traded since. */
  ghost predicate MustPrice(inp: Input, s: Symbol) {
    var start := Later(inp.now - inp.lookbackMs, inp.createdAt);
    || 0 < Shares(inp.fills, s, start, false)
    || exists i | 0 <= i < |inp.fills| :: inp.fills[i].symbol == s && start <= inp.fills[i].at
  }

  /** A bar of such a symbol that ends within the window, after the account was created and before now. */
  ghost predicate DrawnBar(inp: Input, t: int) {
    && inp.now - inp.lookbackMs <= t + inp.barMs && inp.createdAt < t + inp.barMs < inp.now
    && exists s: Symbol, i | 0 <= i < |inp.provider(s)| :: MustPrice(inp, s) && inp.provider(s)[i].time == t
  }

  ghost predicate DrawnEntry(inp: Input, t: int) {
    && inp.now - inp.lookbackMs <= t < inp.now && inp.createdAt <= t
    && exists i | 0 <= i < |inp.ledger| :: inp.ledger[i].at == t
  }

  /** Bars where there are any, or else the ledger's own timestamps, which have no width. */
  ghost predicate Drawn(inp: Input, grid: seq<int>, width: nat) {
    && (forall i, j | 0 <= i < j < |grid| :: grid[i] < grid[j])
    && if exists t :: DrawnBar(inp, t)
       then width == inp.barMs && forall t :: t in grid <==> DrawnBar(inp, t)
       else width == 0 && forall t :: t in grid <==> DrawnEntry(inp, t)
  }

  /** A bar the series may price with once `n` points have passed: over by the first, or starting at one of them. */
  ghost predicate Usable(inp: Input, grid: seq<int>, width: nat, n: nat, c: Candle)
    requires n <= |grid| && grid != []
  {
    c.time + inp.barMs <= grid[0] + width || exists j | 0 <= j < n :: grid[j] == c.time
  }

  /** The close of the last usable bar, if there is one. */
  ghost predicate LastClose(inp: Input, grid: seq<int>, width: nat, n: nat, candles: seq<Candle>, close: Option<Px>)
    requires n <= |grid| && grid != []
  {
    match close
    case None => forall i | 0 <= i < |candles| :: !Usable(inp, grid, width, n, candles[i])
    case Some(price) =>
      exists i | 0 <= i < |candles| ::
        && candles[i].close == price && Usable(inp, grid, width, n, candles[i])
        && forall j | i < j < |candles| :: !Usable(inp, grid, width, n, candles[j])
  }

  /** What is held at grid point k, each holding at its last close, rounded once. */
  ghost predicate Worths(inp: Input, grid: seq<int>, width: nat, k: nat, worths: map<Symbol, Money>)
    requires k < |grid|
  {
    && (forall s: Symbol :: s in worths <==> 0 < Shares(inp.fills, s, grid[k] + width, width == 0))
    && (forall s | s in worths :: exists close: Px ::
          && LastClose(inp, grid, width, k + 1, inp.provider(s), Some(close))
          && IsHalfEven(close * Shares(inp.fills, s, grid[k] + width, width == 0), 100, worths[s]))
  }

  /** A point: cash and contributions by its time, the holdings' worth, and nothing else. */
  ghost predicate PointSays(inp: Input, grid: seq<int>, width: nat, k: nat, p: Point)
    requires k < |grid|
  {
    && p.t == grid[k] + width
    && p.netDeposits == SumOf(Where(inp.ledger, FlowBy(p.t, width == 0)), EntryAmount)
    && exists worths: map<Symbol, Money> ::
         && Worths(inp, grid, width, k, worths)
         && p.value == SumOf(Where(inp.ledger, EntryBy(p.t, width == 0)), EntryAmount) + SumOver(worths, Itself)
  }

  // ---- the specification's sums are these ----

  lemma {:induction false} TradedIs(fills: seq<FillAt>, s: Symbol)
    ensures SumOf(fills, Traded(s)) == NetShares(fills, s)
  {
    if fills != [] {
      var rest, last := fills[..|fills| - 1], fills[|fills| - 1];
      TradedIs(rest, s);
      SumAppend(Where(rest, BuyOf(s)), last, FillQty);
      SumAppend(Where(rest, SaleOf(s)), last, FillQty);
      assert Where(rest, BuyOf(s)) + [] == Where(rest, BuyOf(s)) && Where(rest, SaleOf(s)) + [] == Where(rest, SaleOf(s));
    }
  }

  lemma HeldIs(fills: seq<FillAt>, s: Symbol, cutoff: int, t: int, inclusive: bool)
    requires cutoff == if inclusive then t + 1 else t
    ensures HeldAt(fills, s, cutoff) == Shares(fills, s, t, inclusive)
  {
    hide SumOf, Where;
    SumWhere(fills, FillBy(t, inclusive), Traded(s), TradedBefore(s, cutoff));
    TradedIs(Where(fills, FillBy(t, inclusive)), s);
  }

  lemma HeldAtPoint(inp: Input, s: Symbol, at: int, width: nat)
    ensures HeldAt(inp.fills, s, Cutoff(at, width)) == Shares(inp.fills, s, at + width, width == 0)
  {
    hide HeldAt, Shares;
    HeldIs(inp.fills, s, Cutoff(at, width), at + width, width == 0);
  }

  lemma MustPriceIs(inp: Input, s: Symbol)
    ensures NeedsPrice(inp, s) <==> MustPrice(inp, s)
  {
    hide HeldAt, Shares;
    HeldIs(inp.fills, s, inp.WindowStart(), Later(inp.now - inp.lookbackMs, inp.createdAt), false);
  }

  lemma DrawnIs(inp: Input, grid: seq<int>, width: nat)
    requires 0 < inp.barMs
    ensures IsGrid(inp, grid, width) <==> Drawn(inp, grid, width)
  {
    hide NeedsPrice, MustPrice;
    forall t ensures IsBarStart(inp, t) <==> DrawnBar(inp, t) { BarIs(inp, t); }
    forall t ensures IsEventTime(inp, t) <==> DrawnEntry(inp, t) {}
    hide IsBarStart, DrawnBar, IsEventTime, DrawnEntry;
  }

  lemma BarIs(inp: Input, t: int)
    requires 0 < inp.barMs
    ensures IsBarStart(inp, t) <==> DrawnBar(inp, t)
  {
    hide NeedsPrice, MustPrice;
    forall s: Symbol ensures NeedsPrice(inp, s) <==> MustPrice(inp, s) { MustPriceIs(inp, s); }
  }

  // ---- the closes are these ----

  lemma {:induction false} LastBar(candles: seq<Candle>, t: int) returns (i: int)
    ensures -1 <= i < |candles| && BarAt(candles, t) == if i < 0 then None else Some(candles[i].close)
    ensures 0 <= i ==> candles[i].time <= t
    ensures forall j | i < j < |candles| :: t < candles[j].time
  {
    i := |candles| - 1;
    if candles != [] && candles[i].time > t { i := LastBar(candles[..i], t); }
  }

  lemma {:induction false} KnownIsLast(inp: Input, grid: seq<int>, width: nat, s: Symbol, n: nat)
    requires inp.Ascending() && StrictlyAscending(grid) && grid != [] && n <= |grid| && width <= inp.barMs
    ensures LastClose(inp, grid, width, n, inp.provider(s), Known(inp, grid, width, s, n))
  {
    hide BarAt;
    var candles := inp.provider(s);
    if n == 0 {
      var i := LastBar(candles, SeedTime(inp, grid, width));
    } else if HasBar(candles, grid[n - 1]) {
      BarHere(inp, grid, width, candles, n);
    } else {
      KnownIsLast(inp, grid, width, s, n - 1);
      forall i | 0 <= i < |candles|
        ensures Usable(inp, grid, width, n, candles[i]) <==> Usable(inp, grid, width, n - 1, candles[i])
      {
      }
    }
  }

  lemma BarHere(inp: Input, grid: seq<int>, width: nat, candles: seq<Candle>, n: nat)
    requires StrictlyAscending(grid) && 0 < n <= |grid| && width <= inp.barMs && HasBar(candles, grid[n - 1])
    requires forall i, j | 0 <= i < j < |candles| :: candles[i].time <= candles[j].time
    ensures LastClose(inp, grid, width, n, candles, BarAt(candles, grid[n - 1]))
  {
    hide BarAt;
    var i := LastBar(candles, grid[n - 1]);
    assert candles[i].time == grid[n - 1];
    assert Usable(inp, grid, width, n, candles[i]);
    forall j | i < j < |candles| ensures !Usable(inp, grid, width, n, candles[j]) {}
  }

  // ---- points, series and failures ----

  lemma WorthsAre(inp: Input, grid: seq<int>, width: nat, k: nat)
    requires inp.Ascending() && StrictlyAscending(grid) && k < |grid| && width <= inp.barMs
    requires forall s: Symbol :: !Unpriced(inp, grid, width, k, s)
    ensures Worths(inp, grid, width, k, WorthsAt(inp, grid, width, k))
  {
    hide HeldAt, Shares, LastClose, Known, SymbolsOf, Notional;
    var worths := WorthsAt(inp, grid, width, k);
    forall s: Symbol
      ensures s in worths <==> 0 < Shares(inp.fills, s, grid[k] + width, width == 0)
    {
      HeldAtPoint(inp, s, grid[k], width);
      if s !in SymbolsOf(inp.fills) { NotTraded(inp.fills, s, Cutoff(grid[k], width)); }
    }
    forall s: Symbol | s in worths
      ensures exists close: Px ::
        && LastClose(inp, grid, width, k + 1, inp.provider(s), Some(close))
        && IsHalfEven(close * Shares(inp.fills, s, grid[k] + width, width == 0), 100, worths[s])
    {
      assert !Unpriced(inp, grid, width, k, s);
      KnownIsLast(inp, grid, width, s, k + 1);
      HeldAtPoint(inp, s, grid[k], width);
      var close, held := Known(inp, grid, width, s, k + 1).value, HeldAt(inp.fills, s, Cutoff(grid[k], width));
      assert worths[s] == Notional(close, held) && LastClose(inp, grid, width, k + 1, inp.provider(s), Some(close));
    }
  }

  lemma PointIs(inp: Input, grid: seq<int>, width: nat, k: nat, p: Point)
    requires inp.Ascending() && StrictlyAscending(grid) && k < |grid| && width <= inp.barMs
    requires PointOk(inp, grid, width, k, p)
    ensures PointSays(inp, grid, width, k, p)
  {
    hide SumOf, Where, Unpriced, WorthsAt, Worths, SumOver;
    WorthsAre(inp, grid, width, k);
    var cutoff := Cutoff(grid[k], width);
    SumWhere(inp.ledger, EntryBy(p.t, width == 0), EntryAmount, CashBefore(cutoff));
    SumWhere(inp.ledger, FlowBy(p.t, width == 0), EntryAmount, ExternalBefore(cutoff));
  }

  /**
   * The series over its rows: the grid is the bars that end in the window, or the ledger's own
   * timestamps; each point is cash by its end plus each holding at the last close usable there; the
   * last is live, and the change is from the first to it.
   */
  lemma SeriesInFull(inp: Input, series: Series) returns (grid: seq<int>, width: nat)
    requires inp.Ascending() && Specified(inp, series)
    ensures Drawn(inp, grid, width) && |series.points| == |grid| + 1
    ensures forall k | 0 <= k < |grid| :: PointSays(inp, grid, width, k, series.points[k])
    ensures series.points[|grid|] == Point(inp.now, inp.liveEquity, SumOf(Where(inp.ledger, IsFlow()), EntryAmount))
    ensures var first := series.points[0].value;
      && series.change.absolute == inp.liveEquity - first
      && (series.change.percent.None? <==> first <= 0)
      && (0 < first ==> IsHalfEven((inp.liveEquity - first) * 10000, first, series.change.percent.value))
  {
    hide SumOf, Where, IsGrid, Drawn, PointOk, PointSays;
    grid, width :| SeriesOk(inp, grid, width, series);
    DrawnIs(inp, grid, width);
    GridWidth(inp, grid, width);
    SumWhere(inp.ledger, IsFlow(), EntryAmount, External);
    forall k | 0 <= k < |grid| ensures PointSays(inp, grid, width, k, series.points[k]) {
      assert series.points[..|grid|][k] == series.points[k];
      PointIs(inp, grid, width, k, series.points[k]);
    }
  }

  lemma GridWidth(inp: Input, grid: seq<int>, width: nat)
    requires IsGrid(inp, grid, width)
    ensures StrictlyAscending(grid) && width <= inp.barMs
  {
  }

  /** A holding without a price on the grid drawn. */
  ghost predicate Gap(inp: Input, grid: seq<int>, width: nat, k: nat, s: Symbol) {
    && Drawn(inp, grid, width) && k < |grid| && 0 < Shares(inp.fills, s, grid[k] + width, width == 0)
    && LastClose(inp, grid, width, k + 1, inp.provider(s), None)
  }

  /** What makes the series fail: more shares sold than bought, no candles, or a holding without a usable bar. */
  ghost predicate Undrawable(inp: Input) {
    || (exists n, s: Symbol | 0 <= n <= |inp.fills| :: NetShares(inp.fills[..n], s) < 0)
    || (exists s: Symbol :: MustPrice(inp, s) && inp.provider(s) == [])
    || (exists grid, width: nat, k: nat, s: Symbol :: Gap(inp, grid, width, k, s))
  }

  lemma UnpricedIs(inp: Input, grid: seq<int>, width: nat, k: nat, s: Symbol)
    requires inp.Ascending() && StrictlyAscending(grid) && k < |grid| && width <= inp.barMs
    ensures Unpriced(inp, grid, width, k, s) <==>
      0 < Shares(inp.fills, s, grid[k] + width, width == 0) && LastClose(inp, grid, width, k + 1, inp.provider(s), None)
  {
    hide HeldAt, Shares, Known, Usable;
    HeldAtPoint(inp, s, grid[k], width);
    KnownIsLast(inp, grid, width, s, k + 1);
  }

  lemma ReplayableIs(fills: seq<FillAt>)
    ensures Replayable(fills) <==> forall n, s: Symbol | 0 <= n <= |fills| :: 0 <= NetShares(fills[..n], s)
  {
    hide SumOf, NetShares;
    forall n: nat, s: Symbol | 0 <= n <= |fills| ensures SumOf(fills[..n], Traded(s)) == NetShares(fills[..n], s) {
      TradedIs(fills[..n], s);
    }
    if Replayable(fills) {
      forall n, s: Symbol | 0 <= n <= |fills| ensures 0 <= NetShares(fills[..n], s) {
        assert 0 <= SumOf(fills[..n], Traded(s));
      }
    } else {
      var n: nat, s: Symbol :| n <= |fills| && SumOf(fills[..n], Traded(s)) < 0;
      assert NetShares(fills[..n], s) < 0;
    }
  }

  lemma GapIs(inp: Input, grid: seq<int>, width: nat, k: nat, s: Symbol)
    requires inp.Ascending() && k < |grid|
    ensures IsGrid(inp, grid, width) && Unpriced(inp, grid, width, k, s) <==> Gap(inp, grid, width, k, s)
  {
    hide Unpriced, Shares, LastClose;
    DrawnIs(inp, grid, width);
    if IsGrid(inp, grid, width) {
      GridWidth(inp, grid, width);
      UnpricedIs(inp, grid, width, k, s);
    }
  }

  /** The series fails exactly then. */
  lemma FailsIff(inp: Input)
    requires inp.Ascending()
    ensures Fails(inp) <==> Undrawable(inp)
  {
    hide Replayable, NetShares, NeedsPrice, MustPrice, IsGrid, Gap, Unpriced;
    ReplayableIs(inp.fills);
    forall s: Symbol ensures NeedsPrice(inp, s) <==> MustPrice(inp, s) { MustPriceIs(inp, s); }
    if Fails(inp) {
      var grid, width: nat :| Excused(inp, grid, width);
      if IsGrid(inp, grid, width) {
        if k: nat, s: Symbol :| k < |grid| && Unpriced(inp, grid, width, k, s) { GapIs(inp, grid, width, k, s); }
      }
    }
    if Undrawable(inp) {
      if grid, width: nat, k: nat, s: Symbol :| Gap(inp, grid, width, k, s) {
        GapInRange(inp, grid, width, k, s);
        GapIs(inp, grid, width, k, s);
        assert Excused(inp, grid, width);
      } else {
        assert Excused(inp, [], 0);
      }
    }
  }

  lemma GapInRange(inp: Input, grid: seq<int>, width: nat, k: nat, s: Symbol)
    requires Gap(inp, grid, width, k, s)
    ensures k < |grid|
  {
  }
}

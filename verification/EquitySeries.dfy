/** Net worth over time: a two-pointer walk over a bar grid, against its prefix-sum specification. */
module EquitySeries {
  import opened Wrappers
  import opened Sums
  import opened MoneyMath
  import opened OrderMachine

  type Symbol = nat
  datatype FillAt = FillAt(symbol: Symbol, side: Side, qty: nat, at: int)
  /** external: a DEPOSIT or WITHDRAWAL entry. */
  datatype EntryAt = EntryAt(amount: Money, at: int, external: bool)
  datatype Candle = Candle(time: int, close: Px)

  datatype Input = Input(fills: seq<FillAt>, ledger: seq<EntryAt>, createdAt: int, now: int, liveEquity: Money,
                         barMs: nat, lookbackMs: nat, provider: Symbol -> seq<Candle>)
  {
    function WindowStart(): int { if now - lookbackMs < createdAt then createdAt else now - lookbackMs }

    /** What the source's callers promise: ascending inputs, positive bars. */
    ghost predicate Ascending() {
      && 0 < barMs
      && (forall i, j | 0 <= i < j < |fills| :: fills[i].at <= fills[j].at)
      && (forall i, j | 0 <= i < j < |ledger| :: ledger[i].at <= ledger[j].at)
      && (forall s: Symbol, i, j | 0 <= i < j < |provider(s)| :: provider(s)[i].time <= provider(s)[j].time)
    }
  }

  datatype Point = Point(t: int, value: Money, netDeposits: Money)

  // ---- the specification ----

  function SignedQty(f: FillAt, symbol: Symbol): int {
    if f.symbol != symbol then 0 else if f.side.Buy? then f.qty else 0 - f.qty
  }

  function TradedBefore(symbol: Symbol, cutoff: int): FillAt -> int {
    (f: FillAt) => if f.at < cutoff then SignedQty(f, symbol) else 0
  }

  function Traded(symbol: Symbol): FillAt -> int {
    (f: FillAt) => SignedQty(f, symbol)
  }

  function CashBefore(cutoff: int): EntryAt -> int {
    (e: EntryAt) => if e.at < cutoff then e.amount else 0
  }

  function ExternalBefore(cutoff: int): EntryAt -> int {
    (e: EntryAt) => if e.at < cutoff && e.external then e.amount else 0
  }

  /** Shares of `symbol` held just before `cutoff`. */
  function HeldAt(fills: seq<FillAt>, symbol: Symbol, cutoff: int): int {
    SumOf(fills, TradedBefore(symbol, cutoff))
  }

  /** Never short: the first `upTo` fills can be replayed. */
  ghost predicate ReplayableUpTo(fills: seq<FillAt>, upTo: nat)
    requires upTo <= |fills|
  {
    forall n, s: Symbol | 0 <= n <= upTo :: 0 <= SumOf(fills[..n], Traded(s))
  }

  ghost predicate Replayable(fills: seq<FillAt>) { ReplayableUpTo(fills, |fills|) }

  /** The close of the latest bar starting at or before `t`. */
  function BarAt(candles: seq<Candle>, t: int): Option<Px> {
    if candles == [] then None
    else if candles[|candles| - 1].time <= t then Some(candles[|candles| - 1].close)
    else BarAt(candles[..|candles| - 1], t)
  }

  ghost function SymbolsOf(fills: seq<FillAt>): set<Symbol> { set f | f in fills :: f.symbol }

  /** Symbols that need a price: held at the window start, or traded inside the window. */
  ghost predicate NeedsPrice(inp: Input, s: Symbol) {
    || HeldAt(inp.fills, s, inp.WindowStart()) > 0
    || exists i | 0 <= i < |inp.fills| :: inp.fills[i].symbol == s && inp.fills[i].at >= inp.WindowStart()
  }

  function Worth(price: Option<Px>, qty: nat): Money {
    if price.Some? then Notional(price.value, qty) else 0
  }

  ghost predicate HasBar(candles: seq<Candle>, t: int) {
    exists i | 0 <= i < |candles| :: candles[i].time == t
  }

  /** The start of the last bar that ends at or before the first grid point's end. */
  function SeedTime(inp: Input, grid: seq<int>, barMs: nat): int {
    (if grid == [] then 0 else grid[0] + barMs) - inp.barMs
  }

  /**
   * The close known of a symbol once `n` grid points have passed: of the last of them at which a
   * bar starts, or the one known before the first.
   */
  ghost function Known(inp: Input, grid: seq<int>, barMs: nat, s: Symbol, n: nat): Option<Px>
    requires n <= |grid|
  {
    if n == 0 then BarAt(inp.provider(s), SeedTime(inp, grid, barMs))
    else if HasBar(inp.provider(s), grid[n - 1]) then BarAt(inp.provider(s), grid[n - 1])
    else Known(inp, grid, barMs, s, n - 1)
  }

  /** The bar's end; a ledger timestamp (barMs 0) is sampled inclusively. */
  function Cutoff(barStart: int, barMs: nat): int { if 0 < barMs then barStart + barMs else barStart + 1 }

  /** Notional of each holding at grid point k: the close known there times the shares held at its end. */
  ghost function WorthsAt(inp: Input, grid: seq<int>, barMs: nat, k: nat): map<Symbol, Money>
    requires k < |grid|
  {
    var cutoff := Cutoff(grid[k], barMs);
    map s | s in SymbolsOf(inp.fills) && HeldAt(inp.fills, s, cutoff) > 0 ::
      Worth(Known(inp, grid, barMs, s, k + 1), HeldAt(inp.fills, s, cutoff))
  }

  /** A symbol held at grid point k of which no close is known there. */
  ghost predicate Unpriced(inp: Input, grid: seq<int>, barMs: nat, k: nat, s: Symbol)
    requires k < |grid|
  {
    HeldAt(inp.fills, s, Cutoff(grid[k], barMs)) > 0 && Known(inp, grid, barMs, s, k + 1).None?
  }

  /** One historical point: everything held has a price, and cash, net deposits and value are exact. */
  ghost predicate PointOk(inp: Input, grid: seq<int>, barMs: nat, k: nat, p: Point)
    requires k < |grid|
  {
    var cutoff := Cutoff(grid[k], barMs);
    && (forall s: Symbol :: !Unpriced(inp, grid, barMs, k, s))
    && p == Point(grid[k] + barMs,
                  SumOf(inp.ledger, CashBefore(cutoff)) + SumOver(WorthsAt(inp, grid, barMs, k), Itself),
                  SumOf(inp.ledger, ExternalBefore(cutoff)))
  }

  /** A bar inside the window and the account's life, and no longer open at `now`. */
  predicate Clipped(inp: Input, t: int) {
    inp.WindowStart() - inp.barMs <= t && inp.createdAt < t + inp.barMs && t + inp.barMs < inp.now
  }

  ghost predicate IsBarStart(inp: Input, t: int) {
    Clipped(inp, t) && exists s: Symbol, i | 0 <= i < |inp.provider(s)| :: NeedsPrice(inp, s) && inp.provider(s)[i].time == t
  }

  ghost predicate StrictlyAscending(xs: seq<int>) {
    forall i, j | 0 <= i < j < |xs| :: xs[i] < xs[j]
  }

  // ---- the two pointers ----

  /** Ascending rows: what lies before the cutoff is exactly the prefix the pointer has passed. */
  lemma {:induction false} LedgerPrefix(ledger: seq<EntryAt>, n: nat, cutoff: int)
    requires n <= |ledger|
    requires forall i | 0 <= i < |ledger| :: ledger[i].at < cutoff <==> i < n
    ensures SumOf(ledger, CashBefore(cutoff)) == SumOf(ledger[..n], Amount)
    ensures SumOf(ledger, ExternalBefore(cutoff)) == SumOf(ledger[..n], External)
  {
    if ledger != [] {
      var m := |ledger| - 1;
      if n == |ledger| {
        LedgerPrefix(ledger[..m], m, cutoff);
        assert ledger[..n] == ledger && ledger[..m][..m] == ledger[..m];
      } else {
        LedgerPrefix(ledger[..m], n, cutoff);
        assert ledger[..m][..n] == ledger[..n];
      }
    }
  }

  function Amount(e: EntryAt): Money { e.amount }
  function External(e: EntryAt): Money { if e.external then e.amount else 0 }

  lemma {:induction false} FillsPrefix(fills: seq<FillAt>, n: nat, cutoff: int, s: Symbol)
    requires n <= |fills|
    requires forall i | 0 <= i < |fills| :: fills[i].at < cutoff <==> i < n
    ensures HeldAt(fills, s, cutoff) == SumOf(fills[..n], Traded(s))
  {
    if fills != [] {
      var m := |fills| - 1;
      if n == |fills| {
        FillsPrefix(fills[..m], m, cutoff, s);
        assert fills[..n] == fills && fills[..m][..m] == fills[..m];
      } else {
        FillsPrefix(fills[..m], n, cutoff, s);
        assert fills[..m][..n] == fills[..n];
      }
    }
  }

  /** The book after a prefix of the fills: what the prefix leaves of every symbol it mentions. */
  ghost predicate BookOf(fills: seq<FillAt>, book: map<Symbol, nat>) {
    && book.Keys == SymbolsOf(fills)
    && forall s | s in book :: book[s] == SumOf(fills, Traded(s))
  }

  lemma {:induction false} NeverTraded(fills: seq<FillAt>, s: Symbol)
    requires s !in SymbolsOf(fills)
    ensures SumOf(fills, Traded(s)) == 0
  {
    if fills != [] {
      assert fills[|fills| - 1] in fills;
      assert SymbolsOf(fills[..|fills| - 1]) <= SymbolsOf(fills);
      NeverTraded(fills[..|fills| - 1], s);
    }
  }

  /** One fill into the book, as both replays of the module do it; None where Qty.subtract throws. */
  function Applied(book: map<Symbol, nat>, f: FillAt): Option<map<Symbol, nat>> {
    var held := if f.symbol in book then book[f.symbol] else 0;
    if f.side.Buy? then Some(book[f.symbol := held + f.qty])
    else if held < f.qty then None
    else Some(book[f.symbol := held - f.qty])
  }

  /** What one more fill does to the shares traded of a symbol, and to the symbols mentioned. */
  lemma TradedNext(fills: seq<FillAt>, n: nat, s: Symbol)
    requires n < |fills|
    ensures SumOf(fills[..n + 1], Traded(s)) == SumOf(fills[..n], Traded(s)) + SignedQty(fills[n], s)
  {
    hide SumOf;
    assert fills[..n + 1] == fills[..n] + [fills[n]];
    SumAppend(fills[..n], fills[n], Traded(s));
  }

  lemma SymbolsNext(fills: seq<FillAt>, n: nat)
    requires n < |fills|
    ensures SymbolsOf(fills[..n + 1]) == SymbolsOf(fills[..n]) + {fills[n].symbol}
  {
    assert fills[..n + 1] == fills[..n] + [fills[n]];
  }

  lemma BookGrows(fills: seq<FillAt>, n: nat, book: map<Symbol, nat>)
    requires n < |fills| && BookOf(fills[..n], book)
    ensures Applied(book, fills[n]).Some? ==> BookOf(fills[..n + 1], Applied(book, fills[n]).value)
    ensures Applied(book, fills[n]).None? ==> !Replayable(fills)
  {
    hide SumOf, SymbolsOf, Traded;
    var f := fills[n];
    forall s: Symbol ensures SumOf(fills[..n + 1], Traded(s)) == SumOf(fills[..n], Traded(s)) + SignedQty(f, s) {
      TradedNext(fills, n, s);
    }
    SymbolsNext(fills, n);
    if f.symbol !in book { NeverTraded(fills[..n], f.symbol); }
    if Applied(book, f).None? { assert SumOf(fills[..n + 1], Traded(f.symbol)) < 0; }
  }

  method AdvanceLedger(ledger: seq<EntryAt>, idx: nat, cash: Money, deposits: Money, cutoff: int)
    returns (idx': nat, cash': Money, deposits': Money)
    requires forall i, j | 0 <= i < j < |ledger| :: ledger[i].at <= ledger[j].at
    requires idx <= |ledger| && cash == SumOf(ledger[..idx], Amount) && deposits == SumOf(ledger[..idx], External)
    requires forall i | 0 <= i < idx :: ledger[i].at < cutoff
    ensures idx <= idx' <= |ledger| && forall i | 0 <= i < |ledger| :: ledger[i].at < cutoff <==> i < idx'
    ensures cash' == SumOf(ledger[..idx'], Amount) && deposits' == SumOf(ledger[..idx'], External)
  {
    hide SumOf;
    idx', cash', deposits' := idx, cash, deposits;
    while idx' < |ledger| && ledger[idx'].at < cutoff
      invariant idx <= idx' <= |ledger| && forall i | 0 <= i < idx' :: ledger[i].at < cutoff
      invariant cash' == SumOf(ledger[..idx'], Amount) && deposits' == SumOf(ledger[..idx'], External)
    {
      var e := ledger[idx'];
      assert ledger[..idx' + 1] == ledger[..idx'] + [e];
      SumAppend(ledger[..idx'], e, Amount);
      SumAppend(ledger[..idx'], e, External);
      cash' := cash' + e.amount;
      if e.external { deposits' := deposits' + e.amount; }
      idx' := idx' + 1;
    }
  }

  lemma EmptyBook()
    ensures BookOf([], map[])
  {
  }

  method AdvanceBook(fills: seq<FillAt>, idx: nat, book: map<Symbol, nat>, cutoff: int)
    returns (idx': nat, book': map<Symbol, nat>, threw: bool)
    requires forall i, j | 0 <= i < j < |fills| :: fills[i].at <= fills[j].at
    requires idx <= |fills| && BookOf(fills[..idx], book)
    requires forall i | 0 <= i < idx :: fills[i].at < cutoff
    ensures threw ==> !Replayable(fills)
    ensures !threw ==> idx <= idx' <= |fills| && (forall i | 0 <= i < |fills| :: fills[i].at < cutoff <==> i < idx')
    ensures !threw ==> BookOf(fills[..idx'], book')
  {
    hide BookOf, Replayable, Applied;
    idx', book', threw := idx, book, false;
    while idx' < |fills| && fills[idx'].at < cutoff
      invariant idx <= idx' <= |fills| && forall i | 0 <= i < idx' :: fills[i].at < cutoff
      invariant BookOf(fills[..idx'], book')
    {
      BookGrows(fills, idx', book');
      var next := Applied(book', fills[idx']);
      if next.None? { return idx', book', true; }
      book', idx' := next.value, idx' + 1;
    }
  }

  // ---- which symbols need candles ----

  /** What a book can hold was never short. */
  lemma BookNotShort(fills: seq<FillAt>, book: map<Symbol, nat>)
    requires BookOf(fills, book)
    ensures forall s: Symbol :: 0 <= SumOf(fills, Traded(s))
  {
    hide SumOf, Traded;
    forall s: Symbol ensures 0 <= SumOf(fills, Traded(s)) {
      if s !in book { NeverTraded(fills, s); }
    }
  }

  lemma ReplayableFurther(fills: seq<FillAt>, n: nat, book: map<Symbol, nat>)
    requires n < |fills| && ReplayableUpTo(fills, n) && BookOf(fills[..n + 1], book)
    ensures ReplayableUpTo(fills, n + 1)
  {
    BookNotShort(fills[..n + 1], book);
    hide SumOf, Traded, BookOf;
  }

  lemma NothingReplayed(fills: seq<FillAt>)
    ensures ReplayableUpTo(fills, 0) && BookOf(fills[..0], map[])
  {
  }

  /** involvedSymbols: throws exactly on a history that goes short. */
  method InvolvedSymbols(inp: Input) returns (involved: set<Symbol>, threw: bool)
    requires inp.Ascending()
    ensures threw <==> !Replayable(inp.fills)
    ensures !threw ==> forall s: Symbol :: s in involved <==> NeedsPrice(inp, s)
  {
    EmptyBook();
    NothingReplayed(inp.fills);
    hide BookOf, Applied, HeldAt, ReplayableUpTo, SumOf;
    var fills, windowStart := inp.fills, inp.WindowStart();
    involved, threw := {}, false;
    var held: map<Symbol, nat>, i := map[], 0;
    while i < |fills|
      invariant i <= |fills| && BookOf(fills[..i], held) && ReplayableUpTo(fills, i)
      invariant forall s: Symbol :: s in involved <==> exists k | 0 <= k < i :: fills[k].symbol == s && fills[k].at >= windowStart
    {
      BookGrows(fills, i, held);
      var next := Applied(held, fills[i]);
      if next.None? { return {}, true; }
      held := next.value;
      ReplayableFurther(fills, i, held);
      if fills[i].at >= windowStart { involved := involved + {fills[i].symbol}; }
      i := i + 1;
    }
    var idx, heldNow, again := AdvanceBook(fills, 0, map[], windowStart);
    if again { return {}, true; }
    HeldThen(fills, idx, heldNow, windowStart);
    involved := involved + set s | s in heldNow && heldNow[s] > 0;
  }

  lemma HeldThen(fills: seq<FillAt>, idx: nat, book: map<Symbol, nat>, cutoff: int)
    requires idx <= |fills| && BookOf(fills[..idx], book)
    requires forall i | 0 <= i < |fills| :: fills[i].at < cutoff <==> i < idx
    ensures forall s: Symbol :: HeldAt(fills, s, cutoff) == if s in book then book[s] else 0
  {
    forall s: Symbol ensures HeldAt(fills, s, cutoff) == if s in book then book[s] else 0 {
      FillsPrefix(fills, idx, cutoff, s);
      if s !in book { NeverTraded(fills[..idx], s); }
    }
  }

  lemma {:induction false} NoTradeNoChange(fills: seq<FillAt>, s: Symbol, from: int, upTo: int)
    requires from <= upTo
    requires forall i | 0 <= i < |fills| && fills[i].symbol == s :: fills[i].at < from
    ensures HeldAt(fills, s, upTo) == HeldAt(fills, s, from)
  {
    if fills != [] { NoTradeNoChange(fills[..|fills| - 1], s, from, upTo); }
  }

  /** Whatever is held at or after the window start is a symbol whose candles were asked for. */
  lemma HeldIsInvolved(inp: Input, s: Symbol, cutoff: int)
    requires inp.WindowStart() <= cutoff && HeldAt(inp.fills, s, cutoff) > 0
    ensures NeedsPrice(inp, s)
  {
    if forall i | 0 <= i < |inp.fills| && inp.fills[i].symbol == s :: inp.fills[i].at < inp.WindowStart() {
      NoTradeNoChange(inp.fills, s, inp.WindowStart(), cutoff);
    }
  }

  // ---- closes by bar, and carries ----

  lemma BarAtAppend(candles: seq<Candle>, c: Candle, t: int)
    ensures BarAt(candles + [c], t) == if c.time <= t then Some(c.close) else BarAt(candles, t)
  {
  }

  lemma {:induction false} NoBarBetween(candles: seq<Candle>, before: int, t: int)
    requires before <= t && forall i | 0 <= i < |candles| :: !(before < candles[i].time <= t)
    ensures BarAt(candles, t) == BarAt(candles, before)
  {
    if candles != [] { NoBarBetween(candles[..|candles| - 1], before, t); }
  }

  /** The per-symbol close lookup by bar start. */
  ghost predicate Slots(candles: seq<Candle>, bySlot: map<int, Px>) {
    && (forall t :: t in bySlot <==> HasBar(candles, t))
    && (forall t | t in bySlot :: BarAt(candles, t) == Some(bySlot[t]))
  }

  lemma SlotsGrow(candles: seq<Candle>, n: nat, bySlot: map<int, Px>)
    requires n < |candles| && Slots(candles[..n], bySlot)
    requires forall i | 0 <= i < n :: candles[i].time <= candles[n].time
    ensures Slots(candles[..n + 1], bySlot[candles[n].time := candles[n].close])
  {
    hide BarAt;
    var c := candles[n];
    assert candles[..n + 1] == candles[..n] + [c];
    forall t ensures HasBar(candles[..n + 1], t) <==> HasBar(candles[..n], t) || t == c.time {
      if HasBar(candles[..n], t) {
        var i :| 0 <= i < n && candles[..n][i].time == t;
        assert candles[..n + 1][i].time == t;
      }
      assert candles[..n + 1][n].time == c.time;
    }
    forall t | HasBar(candles[..n], t)
      ensures BarAt(candles[..n + 1], t) == if c.time <= t then Some(c.close) else BarAt(candles[..n], t)
    {
      BarAtAppend(candles[..n], c, t);
    }
    BarAtAppend(candles[..n], c, c.time);
  }

  lemma NoSlots()
    ensures Slots([], map[])
  {
  }

  method Index(candles: seq<Candle>, seedTime: int) returns (bySlot: map<int, Px>, seed: Option<Px>)
    requires forall i, j | 0 <= i < j < |candles| :: candles[i].time <= candles[j].time
    ensures Slots(candles, bySlot) && seed == BarAt(candles, seedTime)
  {
    hide Slots;
    NoSlots();
    bySlot, seed := map[], None;
    var i := 0;
    while i < |candles|
      invariant i <= |candles| && Slots(candles[..i], bySlot) && seed == BarAt(candles[..i], seedTime)
    {
      var c := candles[i];
      SlotsGrow(candles, i, bySlot);
      assert candles[..i + 1] == candles[..i] + [c];
      BarAtAppend(candles[..i], c, seedTime);
      bySlot := bySlot[c.time := c.close];
      if c.time <= seedTime { seed := Some(c.close); }
      i := i + 1;
    }
    assert candles[..i] == candles;
  }

  /** The carries are the closes known once `n` grid points have passed. */
  ghost predicate Carries(inp: Input, symbols: set<Symbol>, grid: seq<int>, barMs: nat, carry: map<Symbol, Px>, n: nat)
    requires n <= |grid|
  {
    && carry.Keys <= symbols
    && forall s | s in symbols :: Known(inp, grid, barMs, s, n) == if s in carry then Some(carry[s]) else None
  }

  ghost predicate Indexed(inp: Input, symbols: set<Symbol>, closeAt: map<Symbol, map<int, Px>>) {
    closeAt.Keys == symbols && forall s | s in symbols :: Slots(inp.provider(s), closeAt[s])
  }

  method IndexAll(inp: Input, symbols: set<Symbol>, grid: seq<int>, barMs: nat)
    returns (closeAt: map<Symbol, map<int, Px>>, carry: map<Symbol, Px>)
    requires inp.Ascending()
    ensures Indexed(inp, symbols, closeAt) && Carries(inp, symbols, grid, barMs, carry, 0)
  {
    hide Slots, HasBar, BarAt;
    closeAt, carry := map[], map[];
    var left := symbols;
    while left != {}
      invariant left <= symbols && Indexed(inp, symbols - left, closeAt) && Carries(inp, symbols - left, grid, barMs, carry, 0)
      decreases |left|
    {
      ghost var any := AnyOf(left);
      var s :| s in left;
      var bySlot, seed := Index(inp.provider(s), SeedTime(inp, grid, barMs));
      closeAt := closeAt[s := bySlot];
      if seed.Some? { carry := carry[s := seed.value]; }
      left := left - {s};
    }
  }

  /** The close the walk uses for a symbol at a bar. */
  function PriceNow(closeAt: map<Symbol, map<int, Px>>, carry: map<Symbol, Px>, s: Symbol, barStart: int): Option<Px> {
    if s in closeAt && barStart in closeAt[s] then Some(closeAt[s][barStart])
    else if s in carry then Some(carry[s])
    else None
  }

  /** A position of the book, outside `skip`, that needs a price. */
  predicate Holds(book: map<Symbol, nat>, skip: set<Symbol>, s: Symbol) {
    s in book && s !in skip && book[s] > 0
  }

  ghost function BookWorths(book: map<Symbol, nat>, skip: set<Symbol>, closeAt: map<Symbol, map<int, Px>>,
                            carry: map<Symbol, Px>, barStart: int): map<Symbol, Money> {
    map s | s in book && Holds(book, skip, s) ::
      Worth(PriceNow(closeAt, carry, s, barStart), book[s])
  }

  /** The carries once the positions outside `skip` have been valued. */
  ghost predicate CarriedOver(book: map<Symbol, nat>, skip: set<Symbol>, closeAt: map<Symbol, map<int, Px>>,
                              carry: map<Symbol, Px>, barStart: int, carry': map<Symbol, Px>) {
    forall s {:trigger s in carry'} ::
      if Holds(book, skip, s) then
        PriceNow(closeAt, carry, s, barStart).Some? && s in carry' && carry'[s] == PriceNow(closeAt, carry, s, barStart).value
      else
        (s in carry' <==> s in carry) && (s in carry ==> carry'[s] == carry[s])
  }

  /** The inner loop over the book: value the holdings and remember the closes used. */
  method ValueBook(cash: Money, book: map<Symbol, nat>, closeAt: map<Symbol, map<int, Px>>, carry: map<Symbol, Px>,
                   barStart: int)
    returns (value: Money, carry': map<Symbol, Px>, missing: Option<Symbol>)
    ensures missing.Some? ==> Holds(book, {}, missing.value) && PriceNow(closeAt, carry, missing.value, barStart).None?
    ensures missing.None? ==> value == cash + SumOver(BookWorths(book, {}, closeAt, carry, barStart), Itself)
    ensures missing.None? ==> CarriedOver(book, {}, closeAt, carry, barStart, carry')
  {
    hide *;
    NothingWorth(book, closeAt, carry, barStart);
    value, carry', missing := cash, carry, None;
    var left := book.Keys;
    while left != {}
      invariant left <= book.Keys
      invariant value == cash + SumOver(BookWorths(book, left, closeAt, carry, barStart), Itself)
      invariant CarriedOver(book, left, closeAt, carry, barStart, carry')
      decreases left
    {
      ghost var any := AnyOf(left);
      var s :| s in left;
      if book[s] > 0 {
        StillToPrice(book, left, s, closeAt, carry, barStart, carry');
        var close := PriceNow(closeAt, carry', s, barStart);
        if close.None? { return value, carry', Some(s); }
        HoldingValued(book, left, s, closeAt, carry, barStart);
        value := value + Notional(close.value, book[s]);
        CarryOne(book, left, s, closeAt, carry, barStart, carry', carry'[s := close.value]);
        carry' := carry'[s := close.value];
      } else {
        CarryOne(book, left, s, closeAt, carry, barStart, carry', carry');
        EmptySkipped(book, left, s, closeAt, carry, barStart);
      }
      left := left - {s};
    }
  }

  lemma NothingWorth(book: map<Symbol, nat>, closeAt: map<Symbol, map<int, Px>>, carry: map<Symbol, Px>, barStart: int)
    ensures SumOver(BookWorths(book, book.Keys, closeAt, carry, barStart), Itself) == 0
    ensures CarriedOver(book, book.Keys, closeAt, carry, barStart, carry)
  {
    assert BookWorths(book, book.Keys, closeAt, carry, barStart) == map[];
  }

  /** A held symbol not valued yet has the price it had at the start of the loop. */
  lemma StillToPrice(book: map<Symbol, nat>, left: set<Symbol>, s: Symbol, closeAt: map<Symbol, map<int, Px>>,
                     carry: map<Symbol, Px>, barStart: int, carry': map<Symbol, Px>)
    requires CarriedOver(book, left, closeAt, carry, barStart, carry') && s in left && s in book && book[s] > 0
    ensures Holds(book, {}, s) && PriceNow(closeAt, carry', s, barStart) == PriceNow(closeAt, carry, s, barStart)
  {
    assert s in carry' <==> s in carry;
  }

  lemma EmptySkipped(book: map<Symbol, nat>, left: set<Symbol>, s: Symbol, closeAt: map<Symbol, map<int, Px>>,
                     carry: map<Symbol, Px>, barStart: int)
    requires s in left && s in book && book[s] == 0
    ensures BookWorths(book, left - {s}, closeAt, carry, barStart) == BookWorths(book, left, closeAt, carry, barStart)
  {
  }

  lemma CarryOne(book: map<Symbol, nat>, left: set<Symbol>, s: Symbol, closeAt: map<Symbol, map<int, Px>>,
                 carry: map<Symbol, Px>, barStart: int, before: map<Symbol, Px>, after: map<Symbol, Px>)
    requires CarriedOver(book, left, closeAt, carry, barStart, before) && s in left && s in book
    requires book[s] == 0 ==> after == before
    requires book[s] > 0 ==>
      PriceNow(closeAt, carry, s, barStart).Some? && after == before[s := PriceNow(closeAt, carry, s, barStart).value]
    ensures CarriedOver(book, left - {s}, closeAt, carry, barStart, after)
  {
  }

  lemma HoldingValued(book: map<Symbol, nat>, left: set<Symbol>, s: Symbol, closeAt: map<Symbol, map<int, Px>>,
                      carry: map<Symbol, Px>, barStart: int)
    requires s in left && s in book && book[s] > 0 && PriceNow(closeAt, carry, s, barStart).Some?
    ensures SumOver(BookWorths(book, left - {s}, closeAt, carry, barStart), Itself) ==
      SumOver(BookWorths(book, left, closeAt, carry, barStart), Itself)
        + Notional(PriceNow(closeAt, carry, s, barStart).value, book[s])
  {
    var before := BookWorths(book, left, closeAt, carry, barStart);
    var worth := Notional(PriceNow(closeAt, carry, s, barStart).value, book[s]);
    SumPut(before, s, worth, Itself);
    assert BookWorths(book, left - {s}, closeAt, carry, barStart) == before[s := worth];
  }

  /** The refresh loop: symbols with a bar at this very start carry its close onward. */
  method RefreshCarries(closeAt: map<Symbol, map<int, Px>>, carry: map<Symbol, Px>,
                        barStart: int) returns (carry': map<Symbol, Px>)
    ensures forall s {:trigger s in carry'} ::
      if s in closeAt && barStart in closeAt[s] then s in carry' && carry'[s] == closeAt[s][barStart]
      else (s in carry' <==> s in carry) && (s in carry ==> carry'[s] == carry[s])
  {
    carry' := carry;
    var left := closeAt.Keys;
    while left != {}
      invariant left <= closeAt.Keys
      invariant forall s {:trigger s in carry'} ::
        if s in closeAt && s !in left && barStart in closeAt[s] then s in carry' && carry'[s] == closeAt[s][barStart]
        else (s in carry' <==> s in carry) && (s in carry ==> carry'[s] == carry[s])
      decreases |left|
    {
      ghost var any := AnyOf(left);
      var s :| s in left;
      left := left - {s};
      if barStart in closeAt[s] { carry' := carry'[s := closeAt[s][barStart]]; }
    }
  }

  // ---- the grid ----

  function Insert(sorted: seq<int>, t: int): (r: seq<int>)
    ensures forall x :: x in r <==> x in sorted || x == t
  {
    if sorted == [] || sorted[|sorted| - 1] < t then sorted + [t]
    else
      assert sorted == sorted[..|sorted| - 1] + [sorted[|sorted| - 1]];
      Insert(sorted[..|sorted| - 1], t) + [sorted[|sorted| - 1]]
  }

  lemma {:induction false} InsertAscends(sorted: seq<int>, t: int)
    requires StrictlyAscending(sorted) && t !in sorted
    ensures StrictlyAscending(Insert(sorted, t))
  {
    if sorted != [] && sorted[|sorted| - 1] >= t {
      var n := |sorted| - 1;
      InsertAscends(sorted[..n], t);
      var r := Insert(sorted[..n], t);
      forall i | 0 <= i < |r| ensures r[i] < sorted[n] {
        assert r[i] in r;
        if r[i] != t { assert r[i] in sorted[..n]; }
      }
    }
  }

  method SortAscending(times: set<int>) returns (sorted: seq<int>)
    ensures StrictlyAscending(sorted) && forall x :: x in sorted <==> x in times
  {
    sorted := [];
    var left := times;
    while left != {}
      invariant left <= times && StrictlyAscending(sorted) && forall x :: x in sorted <==> x in times && x !in left
      decreases |left|
    {
      ghost var any := AnyOf(left);
      var t :| t in left;
      InsertAscends(sorted, t);
      sorted, left := Insert(sorted, t), left - {t};
    }
  }

  // ---- the walk ----

  /** The price the walk uses at grid point k is the close known there. */
  lemma PriceIsKnown(inp: Input, symbols: set<Symbol>, grid: seq<int>, barMs: nat, k: nat,
                     closeAt: map<Symbol, map<int, Px>>, carry: map<Symbol, Px>, s: Symbol)
    requires k < |grid| && s in symbols
    requires Indexed(inp, symbols, closeAt) && Carries(inp, symbols, grid, barMs, carry, k)
    ensures PriceNow(closeAt, carry, s, grid[k]) == Known(inp, grid, barMs, s, k + 1)
  {
    hide BarAt, HasBar;
  }

  /** The book just before the cutoff holds what the specification says is held. */
  lemma BookIsHeld(inp: Input, idx: nat, book: map<Symbol, nat>, cutoff: int, s: Symbol)
    requires idx <= |inp.fills| && BookOf(inp.fills[..idx], book)
    requires forall i | 0 <= i < |inp.fills| :: inp.fills[i].at < cutoff <==> i < idx
    ensures HeldAt(inp.fills, s, cutoff) == if s in book then book[s] else 0
    ensures Holds(book, {}, s) <==> s in SymbolsOf(inp.fills) && HeldAt(inp.fills, s, cutoff) > 0
  {
    FillsPrefix(inp.fills, idx, cutoff, s);
    if s !in book { NeverTraded(inp.fills[..idx], s); }
    if s in book { assert exists f :: f in inp.fills[..idx] && f.symbol == s; }
  }

  /** The book holds exactly what the specification says is held. */
  ghost predicate HoldsAll(inp: Input, book: map<Symbol, nat>, cutoff: int) {
    forall s: Symbol ::
      && (Holds(book, {}, s) <==> s in SymbolsOf(inp.fills) && HeldAt(inp.fills, s, cutoff) > 0)
      && (Holds(book, {}, s) ==> book[s] == HeldAt(inp.fills, s, cutoff))
  }

  lemma BookHoldsAll(inp: Input, idx: nat, book: map<Symbol, nat>, cutoff: int)
    requires idx <= |inp.fills| && BookOf(inp.fills[..idx], book)
    requires forall i | 0 <= i < |inp.fills| :: inp.fills[i].at < cutoff <==> i < idx
    ensures HoldsAll(inp, book, cutoff)
  {
    forall s: Symbol ensures
      && (Holds(book, {}, s) <==> s in SymbolsOf(inp.fills) && HeldAt(inp.fills, s, cutoff) > 0)
      && (Holds(book, {}, s) ==> book[s] == HeldAt(inp.fills, s, cutoff))
    {
      BookIsHeld(inp, idx, book, cutoff, s);
    }
  }

  /** Whatever is held at a grid point in the window is a symbol whose candles were fetched. */
  lemma HeldIsFetched(inp: Input, symbols: set<Symbol>, book: map<Symbol, nat>, cutoff: int)
    requires HoldsAll(inp, book, cutoff) && inp.WindowStart() <= cutoff
    requires forall s: Symbol :: s in symbols <==> NeedsPrice(inp, s)
    ensures forall s | Holds(book, {}, s) :: s in symbols
  {
    hide HeldAt, Holds;
    forall s | Holds(book, {}, s) ensures s in symbols { HeldIsInvolved(inp, s, cutoff); }
  }

  /** All prices the walk uses at a grid point are the closes known there. */
  ghost predicate PricesKnown(inp: Input, symbols: set<Symbol>, grid: seq<int>, barMs: nat, k: nat,
                              closeAt: map<Symbol, map<int, Px>>, carry: map<Symbol, Px>, book: map<Symbol, nat>)
    requires k < |grid|
  {
    && (forall s | Holds(book, {}, s) :: s in symbols)
    && (forall s | s in symbols :: PriceNow(closeAt, carry, s, grid[k]) == Known(inp, grid, barMs, s, k + 1))
  }

  lemma AllPricesKnown(inp: Input, symbols: set<Symbol>, grid: seq<int>, barMs: nat, k: nat,
                       closeAt: map<Symbol, map<int, Px>>, carry: map<Symbol, Px>, book: map<Symbol, nat>)
    requires k < |grid| && HoldsAll(inp, book, Cutoff(grid[k], barMs)) && inp.WindowStart() <= Cutoff(grid[k], barMs)
    requires forall s: Symbol :: s in symbols <==> NeedsPrice(inp, s)
    requires Indexed(inp, symbols, closeAt) && Carries(inp, symbols, grid, barMs, carry, k)
    ensures PricesKnown(inp, symbols, grid, barMs, k, closeAt, carry, book)
  {
    hide HoldsAll, NeedsPrice, Indexed, Carries, PriceNow, Known, Holds;
    HeldIsFetched(inp, symbols, book, Cutoff(grid[k], barMs));
    forall s | s in symbols ensures PriceNow(closeAt, carry, s, grid[k]) == Known(inp, grid, barMs, s, k + 1) {
      PriceIsKnown(inp, symbols, grid, barMs, k, closeAt, carry, s);
    }
  }

  lemma WorthsAgree(inp: Input, symbols: set<Symbol>, grid: seq<int>, barMs: nat, k: nat,
                    closeAt: map<Symbol, map<int, Px>>, carry: map<Symbol, Px>, book: map<Symbol, nat>)
    requires k < |grid| && HoldsAll(inp, book, Cutoff(grid[k], barMs))
    requires PricesKnown(inp, symbols, grid, barMs, k, closeAt, carry, book)
    ensures BookWorths(book, {}, closeAt, carry, grid[k]) == WorthsAt(inp, grid, barMs, k)
  {
    hide HeldAt, PriceNow, Known, Notional;
  }

  /** When the book loop found a price for everything it held, nothing is unpriced. */
  lemma AllPriced(inp: Input, symbols: set<Symbol>, grid: seq<int>, barMs: nat, k: nat,
                  closeAt: map<Symbol, map<int, Px>>, carry: map<Symbol, Px>, book: map<Symbol, nat>, valued: map<Symbol, Px>)
    requires k < |grid| && HoldsAll(inp, book, Cutoff(grid[k], barMs))
    requires PricesKnown(inp, symbols, grid, barMs, k, closeAt, carry, book)
    requires CarriedOver(book, {}, closeAt, carry, grid[k], valued)
    ensures forall s: Symbol :: !Unpriced(inp, grid, barMs, k, s)
  {
    hide HeldAt, PriceNow, Known;
    var cutoff := Cutoff(grid[k], barMs);
    forall s: Symbol ensures !Unpriced(inp, grid, barMs, k, s) {
      if HeldAt(inp.fills, s, cutoff) > 0 {
        if s !in SymbolsOf(inp.fills) { NotTraded(inp.fills, s, cutoff); }
        assert Holds(book, {}, s);
        assert s in valued;
      }
    }
  }

  lemma MissingIsUnpriced(inp: Input, symbols: set<Symbol>, grid: seq<int>, barMs: nat, k: nat,
                          closeAt: map<Symbol, map<int, Px>>, carry: map<Symbol, Px>, book: map<Symbol, nat>, s: Symbol)
    requires k < |grid| && HoldsAll(inp, book, Cutoff(grid[k], barMs))
    requires PricesKnown(inp, symbols, grid, barMs, k, closeAt, carry, book)
    requires Holds(book, {}, s) && PriceNow(closeAt, carry, s, grid[k]).None?
    ensures Unpriced(inp, grid, barMs, k, s)
  {
  }

  /** After the book and refresh loops the carries are what is known past this point. */
  lemma CarriesMoveOn(inp: Input, symbols: set<Symbol>, grid: seq<int>, barMs: nat, k: nat,
                      closeAt: map<Symbol, map<int, Px>>, carry: map<Symbol, Px>, book: map<Symbol, nat>,
                      valued: map<Symbol, Px>, refreshed: map<Symbol, Px>)
    requires k < |grid| && Indexed(inp, symbols, closeAt) && Carries(inp, symbols, grid, barMs, carry, k)
    requires PricesKnown(inp, symbols, grid, barMs, k, closeAt, carry, book)
    requires CarriedOver(book, {}, closeAt, carry, grid[k], valued)
    requires forall s {:trigger s in refreshed} ::
      if s in closeAt && grid[k] in closeAt[s] then s in refreshed && refreshed[s] == closeAt[s][grid[k]]
      else (s in refreshed <==> s in valued) && (s in valued ==> refreshed[s] == valued[s])
    ensures Carries(inp, symbols, grid, barMs, refreshed, k + 1)
  {
    hide Known, Slots, Holds;
  }

  /** One grid point once both pointers stand at its cutoff. */
  method OnePoint(inp: Input, symbols: set<Symbol>, grid: seq<int>, k: nat, barMs: nat, closeAt: map<Symbol, map<int,
                  Px>>,
                  carry: map<Symbol, Px>, book: map<Symbol, nat>, cash: Money, deposits: Money)
    returns (p: Point, carry': map<Symbol, Px>, missing: Option<Symbol>)
    requires k < |grid| && inp.WindowStart() <= Cutoff(grid[k], barMs)
    requires HoldsAll(inp, book, Cutoff(grid[k], barMs))
    requires cash == SumOf(inp.ledger, CashBefore(Cutoff(grid[k], barMs)))
    requires deposits == SumOf(inp.ledger, ExternalBefore(Cutoff(grid[k], barMs)))
    requires forall s: Symbol :: s in symbols <==> NeedsPrice(inp, s)
    requires Indexed(inp, symbols, closeAt) && Carries(inp, symbols, grid, barMs, carry, k)
    ensures missing.Some? ==> Unpriced(inp, grid, barMs, k, missing.value)
    ensures missing.None? ==> PointOk(inp, grid, barMs, k, p) && Carries(inp, symbols, grid, barMs, carry', k + 1)
  {
    hide HoldsAll, Indexed, Carries, PricesKnown, CarriedOver, NeedsPrice, PriceNow, Known, SumOf, SumOver, BookWorths,
         WorthsAt, Unpriced, Holds;
    AllPricesKnown(inp, symbols, grid, barMs, k, closeAt, carry, book);
    var valued: map<Symbol, Px>;
    var value;
    value, valued, missing := ValueBook(cash, book, closeAt, carry, grid[k]);
    p, carry' := Point(grid[k] + barMs, value, deposits), carry;
    if missing.Some? {
      MissingIsUnpriced(inp, symbols, grid, barMs, k, closeAt, carry, book, missing.value);
      return;
    }
    carry' := RefreshCarries(closeAt, valued, grid[k]);
    WorthsAgree(inp, symbols, grid, barMs, k, closeAt, carry, book);
    AllPriced(inp, symbols, grid, barMs, k, closeAt, carry, book, valued);
    CarriesMoveOn(inp, symbols, grid, barMs, k, closeAt, carry, book, valued, carry');
  }

  lemma {:induction false} NotTraded(fills: seq<FillAt>, s: Symbol, cutoff: int)
    requires s !in SymbolsOf(fills)
    ensures HeldAt(fills, s, cutoff) == 0
  {
    if fills != [] {
      assert fills[|fills| - 1] in fills;
      assert SymbolsOf(fills[..|fills| - 1]) <= SymbolsOf(fills);
      NotTraded(fills[..|fills| - 1], s, cutoff);
    }
  }

  lemma NothingYet(inp: Input)
    ensures SumOf(inp.ledger[..0], Amount) == 0 && SumOf(inp.ledger[..0], External) == 0 && BookOf(inp.fills[..0], map[])
  {
  }

  /** The single ascending walk over the grid. */
  method Walk(inp: Input, symbols: set<Symbol>, grid: seq<int>, barMs: nat, closeAt: map<Symbol, map<int, Px>>,
              seeds: map<Symbol, Px>)
    returns (points: seq<Point>, failed: bool)
    requires inp.Ascending() && StrictlyAscending(grid)
    requires forall k | 0 <= k < |grid| :: inp.WindowStart() <= Cutoff(grid[k], barMs)
    requires forall s: Symbol :: s in symbols <==> NeedsPrice(inp, s)
    requires Indexed(inp, symbols, closeAt) && Carries(inp, symbols, grid, barMs, seeds, 0)
    ensures failed ==> !Replayable(inp.fills) || exists k, s: Symbol | 0 <= k < |grid| :: Unpriced(inp, grid, barMs, k, s)
    ensures !failed ==> |points| == |grid| && forall k | 0 <= k < |grid| :: PointOk(inp, grid, barMs, k, points[k])
  {
    NothingYet(inp);
    hide SumOf, BookOf, Replayable, PointOk, Unpriced, Indexed, Carries, HoldsAll, NeedsPrice;
    points, failed := [], false;
    var book: map<Symbol, nat>, carry := map[], seeds;
    var cash, deposits := 0, 0;
    var ledgerIdx: nat, fillIdx: nat, k: nat := 0, 0, 0;
    while k < |grid|
      invariant k <= |grid| && |points| == k
      invariant forall j | 0 <= j < k :: PointOk(inp, grid, barMs, j, points[j])
      invariant ledgerIdx <= |inp.ledger| && fillIdx <= |inp.fills| && BookOf(inp.fills[..fillIdx], book)
      invariant cash == SumOf(inp.ledger[..ledgerIdx], Amount) && deposits == SumOf(inp.ledger[..ledgerIdx], External)
      invariant forall i | 0 <= i < ledgerIdx :: 0 < k && inp.ledger[i].at < Cutoff(grid[k - 1], barMs)
      invariant forall i | 0 <= i < fillIdx :: 0 < k && inp.fills[i].at < Cutoff(grid[k - 1], barMs)
      invariant Carries(inp, symbols, grid, barMs, carry, k)
    {
      var cutoff := Cutoff(grid[k], barMs);
      ledgerIdx, cash, deposits := AdvanceLedger(inp.ledger, ledgerIdx, cash, deposits, cutoff);
      LedgerPrefix(inp.ledger, ledgerIdx, cutoff);
      var threw: bool;
      fillIdx, book, threw := AdvanceBook(inp.fills, fillIdx, book, cutoff);
      if threw { return [], true; }
      BookHoldsAll(inp, fillIdx, book, cutoff);
      var p, carry', missing := OnePoint(inp, symbols, grid, k, barMs, closeAt, carry, book, cash, deposits);
      if missing.Some? { return [], true; }
      points, carry, k := points + [p], carry', k + 1;
    }
  }

  // ---- the whole series ----

  datatype Change = Change(absolute: Money, percent: Option<int>)
  datatype Series = Series(points: seq<Point>, change: Change)

  /** percentChange in hundredths of a percent: None of a base that is not positive. */
  function PercentChange(from: Money, upTo: Money): (percent: Option<int>)
    ensures percent.None? <==> from <= 0
    ensures percent.Some? ==> IsHalfEven((upTo - from) * 10000, from, percent.value)
  {
    if from <= 0 then None else Some(HalfEven((upTo - from) * 10000, from))
  }

  /** The grid the series is drawn on: bar starts, or failing those the ledger's own timestamps. */
  ghost predicate IsGrid(inp: Input, grid: seq<int>, barMs: nat) {
    && StrictlyAscending(grid)
    && if exists t :: IsBarStart(inp, t) then
         barMs == inp.barMs && forall t :: t in grid <==> IsBarStart(inp, t)
       else
         barMs == 0 && forall t :: t in grid <==> IsEventTime(inp, t)
  }

  ghost predicate IsEventTime(inp: Input, t: int) {
    inp.WindowStart() <= t < inp.now && exists i | 0 <= i < |inp.ledger| :: inp.ledger[i].at == t
  }

  method ChooseGrid(inp: Input, symbols: set<Symbol>) returns (grid: seq<int>, barMs: nat)
    requires inp.Ascending() && forall s: Symbol :: s in symbols <==> NeedsPrice(inp, s)
    ensures IsGrid(inp, grid, barMs)
    ensures forall k | 0 <= k < |grid| :: inp.WindowStart() <= Cutoff(grid[k], barMs) && grid[k] + barMs < inp.now
  {
    var starts := set s, c | s in symbols && c in inp.provider(s) && Clipped(inp, c.time) :: c.time;
    BarStartsAre(inp, symbols, starts);
    grid := SortAscending(starts);
    barMs := inp.barMs;
    if |grid| == 0 {
      assert forall t :: t !in grid;
      grid := SortAscending(set e | e in inp.ledger && inp.WindowStart() <= e.at < inp.now :: e.at);
      barMs := 0;
    } else {
      assert grid[0] in grid;
    }
    forall k | 0 <= k < |grid| ensures inp.WindowStart() <= Cutoff(grid[k], barMs) && grid[k] + barMs < inp.now {
      assert grid[k] in grid;
    }
  }

  lemma BarStartsAre(inp: Input, symbols: set<Symbol>, starts: set<int>)
    requires forall s: Symbol :: s in symbols <==> NeedsPrice(inp, s)
    requires starts == set s, c | s in symbols && c in inp.provider(s) && Clipped(inp, c.time) :: c.time
    ensures forall t :: t in starts <==> IsBarStart(inp, t)
  {
  }

  /** Why a series may fail as a whole; `grid` is the one it was to be drawn on. */
  ghost predicate Excused(inp: Input, grid: seq<int>, barMs: nat) {
    || !Replayable(inp.fills)
    || (exists s: Symbol :: NeedsPrice(inp, s) && inp.provider(s) == [])
    || (IsGrid(inp, grid, barMs) && exists k, s: Symbol | 0 <= k < |grid| :: Unpriced(inp, grid, barMs, k, s))
  }

  /** The historical points of a series that did not fail. */
  ghost predicate History(inp: Input, grid: seq<int>, barMs: nat, points: seq<Point>) {
    && IsGrid(inp, grid, barMs) && |points| == |grid|
    && (forall k | 0 <= k < |grid| :: PointOk(inp, grid, barMs, k, points[k]))
  }

  lemma HistoryAscends(inp: Input, grid: seq<int>, barMs: nat, points: seq<Point>)
    requires History(inp, grid, barMs, points) && forall k | 0 <= k < |grid| :: grid[k] + barMs < inp.now
    ensures forall i, j | 0 <= i < j < |points| :: points[i].t < points[j].t
    ensures forall i | 0 <= i < |points| :: points[i].t < inp.now
  {
  }

  method FetchAll(inp: Input, involved: set<Symbol>) returns (empty: Option<Symbol>)
    ensures empty.Some? ==> empty.value in involved && inp.provider(empty.value) == []
    ensures empty.None? ==> forall s | s in involved :: inp.provider(s) != []
  {
    var left := involved;
    while left != {}
      invariant left <= involved && forall s | s in involved && s !in left :: inp.provider(s) != []
      decreases |left|
    {
      ghost var any := AnyOf(left);
      var s :| s in left;
      if inp.provider(s) == [] { return Some(s); }
      left := left - {s};
    }
    return None;
  }

  /** The historical part: candles, grid, walk. It fails exactly where it is excused. */
  method Draw(inp: Input) returns (history: Option<seq<Point>>, ghost grid: seq<int>, ghost barMs: nat)
    requires inp.Ascending()
    ensures history.None? <==> Excused(inp, grid, barMs)
    ensures history.Some? ==> History(inp, grid, barMs, history.value)
    ensures history.Some? ==> forall k | 0 <= k < |grid| :: grid[k] + barMs < inp.now
  {
    hide Replayable, NeedsPrice, IsGrid, Unpriced, Carries, Indexed;
    grid, barMs := [], 0;
    var involved, threw := InvolvedSymbols(inp);
    if threw { return None, grid, barMs; }
    var empty := FetchAll(inp, involved);
    if empty.Some? { return None, grid, barMs; }
    var bars, width := ChooseGrid(inp, involved);
    grid, barMs := bars, width;
    GridAscends(inp, bars, width);
    var closeAt, seeds := IndexAll(inp, involved, bars, width);
    var points, failed := Walk(inp, involved, bars, width, closeAt, seeds);
    if failed { return None, grid, barMs; }
    NoExcuse(inp, bars, width, points);
    return Some(points), grid, barMs;
  }

  lemma NoExcuse(inp: Input, grid: seq<int>, barMs: nat, points: seq<Point>)
    requires Replayable(inp.fills) && (forall s: Symbol | NeedsPrice(inp, s) :: inp.provider(s) != [])
    requires History(inp, grid, barMs, points)
    ensures !Excused(inp, grid, barMs)
  {
    hide Replayable, NeedsPrice, IsGrid, Unpriced;
    forall k, s: Symbol | 0 <= k < |grid| ensures !Unpriced(inp, grid, barMs, k, s) {
      assert PointOk(inp, grid, barMs, k, points[k]);
    }
  }

  lemma GridAscends(inp: Input, grid: seq<int>, barMs: nat)
    requires IsGrid(inp, grid, barMs)
    ensures StrictlyAscending(grid)
  {
  }

  /** A finished series: the history, then the live point, in strictly ascending order. */
  ghost predicate SeriesOk(inp: Input, grid: seq<int>, barMs: nat, series: Series) {
    var points := series.points;
    && points != [] && History(inp, grid, barMs, points[..|points| - 1])
    && points[|points| - 1] == Point(inp.now, inp.liveEquity, SumOf(inp.ledger, External))
    && (forall i, j | 0 <= i < j < |points| :: points[i].t < points[j].t)
    && series.change == Change(inp.liveEquity - points[0].value, PercentChange(points[0].value, inp.liveEquity))
  }

  /** The points left when those at or after `now` are popped off the end. */
  function BeforeNow(points: seq<Point>, now: int): seq<Point> {
    if points != [] && points[|points| - 1].t >= now then BeforeNow(points[..|points| - 1], now) else points
  }

  /** The live tail; bars that would stand at or after `now` yield to it. */
  method Finish(inp: Input, history: seq<Point>, ghost grid: seq<int>, ghost barMs: nat) returns (series: Series)
    requires History(inp, grid, barMs, history) && forall k | 0 <= k < |grid| :: grid[k] + barMs < inp.now
    ensures SeriesOk(inp, grid, barMs, series)
  {
    hide History, PercentChange, SumOf, SeriesOk;
    var points := history;
    while |points| > 0 && points[|points| - 1].t >= inp.now
      invariant BeforeNow(points, inp.now) == BeforeNow(history, inp.now)
    {
      points := points[..|points| - 1];
    }
    HistoryAscends(inp, grid, barMs, history);
    points := points + [Point(inp.now, inp.liveEquity, SumOf(inp.ledger, External))];
    var first := points[0].value;
    series := Series(points, Change(inp.liveEquity - first, PercentChange(first, inp.liveEquity)));
    SeriesFits(inp, history, grid, barMs, series);
  }

  lemma SeriesFits(inp: Input, history: seq<Point>, grid: seq<int>, barMs: nat, series: Series)
    requires History(inp, grid, barMs, history)
    requires forall i, j | 0 <= i < j < |history| :: history[i].t < history[j].t
    requires forall i | 0 <= i < |history| :: history[i].t < inp.now
    requires series.points == history + [Point(inp.now, inp.liveEquity, SumOf(inp.ledger, External))]
    requires var first := series.points[0].value; 
      series.change == Change(inp.liveEquity - first, PercentChange(first, inp.liveEquity))
    ensures SeriesOk(inp, grid, barMs, series)
  {
  }

  /** What makes equitySeries fail: a history that goes short, no candles, or a holding without a price. */
  ghost predicate Fails(inp: Input) {
    exists grid, barMs :: Excused(inp, grid, barMs)
  }

  ghost predicate Specified(inp: Input, series: Series) {
    exists grid, barMs :: SeriesOk(inp, grid, barMs, series)
  }

  /**
   * equitySeries: every historical point is the prefix-sum specification's, on the one grid there
   * is; times strictly ascend and end live at `now`; and the whole fails exactly where it is excused.
   */
  method Compute(inp: Input) returns (series: Option<Series>)
    requires inp.Ascending()
    ensures series.None? <==> Fails(inp)
    ensures series.Some? ==> Specified(inp, series.value)
  {
    hide SeriesOk, Excused;
    var history, grid, barMs := Draw(inp);
    if history.None? { return None; }
    NoOtherExcuse(inp, grid, barMs);
    hide History;
    var finished := Finish(inp, history.value, grid, barMs);
    return Some(finished);
  }

  lemma NoOtherExcuse(inp: Input, grid: seq<int>, barMs: nat)
    requires IsGrid(inp, grid, barMs) && !Excused(inp, grid, barMs)
    ensures !Fails(inp)
  {
    hide IsGrid, Replayable, NeedsPrice, Unpriced;
    forall grid', barMs' ensures !Excused(inp, grid', barMs') {
      if IsGrid(inp, grid', barMs') { GridIsUnique(inp, grid, grid', barMs, barMs'); }
    }
  }

  /** There is only one grid, so the history is determined by the input. */
  lemma GridIsUnique(inp: Input, a: seq<int>, b: seq<int>, barMsA: nat, barMsB: nat)
    requires IsGrid(inp, a, barMsA) && IsGrid(inp, b, barMsB)
    ensures a == b && barMsA == barMsB
  {
    assert forall t :: t in a <==> t in b;
    SameElements(a, b);
  }

  /** The specification leaves exactly one series. */
  lemma SeriesIsUnique(inp: Input, a: Series, b: Series)
    requires Specified(inp, a) && Specified(inp, b)
    ensures a == b
  {
    hide SeriesOk, IsGrid;
    var grid, barMs :| SeriesOk(inp, grid, barMs, a);
    var grid', barMs' :| SeriesOk(inp, grid', barMs', b);
    OnGrid(inp, grid, barMs, a);
    OnGrid(inp, grid', barMs', b);
    GridIsUnique(inp, grid, grid', barMs, barMs');
    SeriesOnGrid(inp, grid, barMs, a, b);
  }

  lemma OnGrid(inp: Input, grid: seq<int>, barMs: nat, series: Series)
    requires SeriesOk(inp, grid, barMs, series)
    ensures IsGrid(inp, grid, barMs)
  {
  }

  lemma SeriesOnGrid(inp: Input, grid: seq<int>, barMs: nat, a: Series, b: Series)
    requires SeriesOk(inp, grid, barMs, a) && SeriesOk(inp, grid, barMs, b)
    ensures a == b
  {
    hide PercentChange, SumOf, IsGrid, WorthsAt, Unpriced;
    var n := |grid|;
    assert a.points[..n] == b.points[..n];
    assert a.points == a.points[..n] + [a.points[n]] && b.points == b.points[..n] + [b.points[n]];
  }

  /** Between two points of a grid of bars no bar of a symbol in use starts. */
  lemma NoBarSkipped(inp: Input, grid: seq<int>, n: nat, s: Symbol)
    requires IsGrid(inp, grid, inp.barMs) && 0 < inp.barMs && 0 < n < |grid| && NeedsPrice(inp, s)
    ensures grid[n - 1] < grid[n]
    ensures forall i | 0 <= i < |inp.provider(s)| :: !(grid[n - 1] < inp.provider(s)[i].time < grid[n])
  {
    hide NeedsPrice;
    assert grid[n - 1] in grid && grid[n] in grid;
    forall i | 0 <= i < |inp.provider(s)| ensures !(grid[n - 1] < inp.provider(s)[i].time < grid[n]) {
      var t := inp.provider(s)[i].time;
      assert Clipped(inp, t) ==> IsBarStart(inp, t);
      assert t in grid ==> t <= grid[n - 1] || grid[n] <= t;
    }
  }

  /** On a grid of bars, what is carried forward is always the close of the symbol's latest bar. */
  lemma {:induction false} KnownIsLatestBar(inp: Input, grid: seq<int>, s: Symbol, k: nat)
    requires IsGrid(inp, grid, inp.barMs) && 0 < inp.barMs && k < |grid| && NeedsPrice(inp, s)
    ensures Known(inp, grid, inp.barMs, s, k + 1) == BarAt(inp.provider(s), grid[k])
  {
    hide IsGrid, NeedsPrice, BarAt;
    if !HasBar(inp.provider(s), grid[k]) && 0 < k {
      KnownIsLatestBar(inp, grid, s, k - 1);
      NoBarSkipped(inp, grid, k, s);
      NoBarBetween(inp.provider(s), grid[k - 1], grid[k]);
    }
  }

  lemma {:induction false} SameElements(a: seq<int>, b: seq<int>)
    requires StrictlyAscending(a) && StrictlyAscending(b) && forall t :: t in a <==> t in b
    ensures a == b
  {
    assert b != [] ==> b[|b| - 1] in b;
    if a != [] {
      assert a[|a| - 1] in a;
      assert a[|a| - 1] in b && (b != [] ==> b[|b| - 1] in a);
      var a', b' := a[..|a| - 1], b[..|b| - 1];
      forall t ensures t in a' <==> t in b' {
        if t in a' { assert t in b; }
        if t in b' { assert t in a; }
      }
      SameElements(a', b');
      assert a == a' + [a[|a| - 1]] && b == b' + [b[|b| - 1]];
    }
  }
}

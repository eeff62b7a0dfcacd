/**
 * The browser's own money arithmetic: BigInt on decimal strings, written apart from the
 * server's value objects, and proved to give the server's answers.
 */
module Browser {
  import opened Wrappers
  import opened Sums
  import opened MoneyMath
  import opened Decimals
  import opened Rows
  import Transfers

  // ---- cash amounts ----

  function ToCents(s: string): Option<int> { ReadSigned(s, 2) }

  function CentsToString(cents: int): string { Render(cents, 2) }

  /** toCents and centsToString undo each other, both ways round. */
  lemma CentsRoundTrip(cents: int, s: string)
    ensures ToCents(CentsToString(cents)) == Some(cents) && Canonical(CentsToString(cents), 2)
    ensures Canonical(s, 2) ==> ToCents(s).Some? && CentsToString(ToCents(s).value) == s
  {
    RenderThenRead(cents, 2);
    RenderIsCanonical(cents, 2);
    if Canonical(s, 2) { ReadThenRender(s, 2); }
  }

  function AddMoney(a: string, b: string): Option<string> {
    match (ToCents(a), ToCents(b))
    case (Some(x), Some(y)) => Some(CentsToString(x + y))
    case _ => None
  }

  function SubtractMoney(a: string, b: string): Option<string> {
    match (ToCents(a), ToCents(b))
    case (Some(x), Some(y)) => Some(CentsToString(x - y))
    case _ => None
  }

  /** Adding is exact, and taking the same amount off again gives back the very string. */
  lemma AddThenSubtract(a: string, b: string)
    requires Canonical(a, 2) && Canonical(b, 2)
    ensures ToCents(a).Some? && ToCents(b).Some? && AddMoney(a, b).Some?
    ensures var sum := AddMoney(a, b).value;
      && Canonical(sum, 2) && ToCents(sum) == Some(ToCents(a).value + ToCents(b).value)
      && SubtractMoney(sum, b) == Some(a)
  {
    hide ToCents, CentsToString;
    CentsRoundTrip(0, a);
    CentsRoundTrip(0, b);
    CentsRoundTrip(ToCents(a).value + ToCents(b).value, a);
  }

  /** `percent`% of an amount, rounded down to the cent. */
  function PercentOf(value: string, percent: nat): Option<string> {
    match ToCents(value)
    case Some(cents) => Some(if cents <= 0 then "0.00" else CentsToString(cents * percent / 100))
    case None => None
  }

  lemma PercentNeverExceeds(value: string, percent: nat)
    requires Canonical(value, 2) && percent <= 100
    ensures ToCents(value).Some? && PercentOf(value, percent).Some?
    ensures var part := ToCents(PercentOf(value, percent).value);
      var cents := if ToCents(value).value < 0 then 0 else ToCents(value).value;
      part.Some? && 0 <= part.value <= cents && 100 * part.value <= cents * percent < 100 * (part.value + 1)
  {
    hide ToCents, CentsToString;
    CentsRoundTrip(0, value);
    ZeroRead();
    var cents := ToCents(value).value;
    if 0 < cents {
      CentsRoundTrip(cents * percent / 100, value);
      Stretch(cents, percent, 100);
    }
  }

  lemma ThreeZeros()
    ensures Padded(0, 2) == "000"
  {
    DigitsOne(0);
    ZerosAre(2);
    hide Digits, Parse;
    assert PadStart("0", 3) == Zeros(2) + "0" == "000";
  }

  lemma ZeroJoined()
    ensures "000"[..1] == "0" && "000"[1..] == "00" && Joined(false, "0", "00") == "0.00"
  {
  }

  lemma ZeroRead()
    ensures CentsToString(0) == "0.00" && ToCents("0.00") == Some(0)
  {
    hide Padded, ReadSigned, ReadUnsigned;
    ThreeZeros();
    ZeroJoined();
    hide Joined;
    RenderThenRead(0, 2);
  }

  lemma ZeroReads()
    ensures Render(0, 2) == "0.00" && ReadUnsigned("0.00", 2) == Some(0)
  {
    hide Render, ReadUnsigned;
    ZeroRead();
  }

  // ---- the order ticket ----

  /** price * qty to the cent, from the price string. */
  function EstimateNotional(price: string, qty: nat): Option<string> {
    match ReadUnsigned(price, 4)
    case Some(perShare) =>
      var units := perShare * qty;
      var cents, rest := units / 100, units % 100;
      Some(CentsToString(if rest > 50 || (rest == 50 && cents % 2 == 1) then cents + 1 else cents))
    case None => None
  }

  /** The ticket shows what the fill would book, for every spelling of the price. */
  lemma EstimateIsNotional(price: string, p: Px, qty: nat)
    requires ReadUnsigned(price, 4).Some? && ReadUnsigned(price, 4).value == p
    ensures EstimateNotional(price, qty) == Some(CentsToString(Notional(p, qty)))
  {
  }

  /** `s.replace(".", "")`: the first point goes. */
  function WithoutPoint(s: string): string {
    var at := IndexOf(s, '.');
    if at == |s| then s else s[..at] + s[at + 1..]
  }

  /** What a market BUY holds, from the price string and the buffer string. */
  function ReserveFromStrings(price: string, qty: nat, buffer: string): Option<string> {
    match ReadUnsigned(price, 4)
    case Some(perShare) =>
      if !AllDigits(WithoutPoint(buffer)) then None
      else
        var scale, ratio := Pow10(|Frac(buffer)|), Parse(WithoutPoint(buffer));
        var numerator, denominator := perShare * qty * (scale + ratio), scale * 100;
        var cents, twice := numerator / denominator, numerator % denominator * 2;
        Some(CentsToString(if twice > denominator || (twice == denominator && cents % 2 == 1) then cents + 1 else cents))
    case None => None
  }

  /** The digits of a buffer string: "0.025" and "0.0250" spell one ratio. */
  ghost predicate Spells(buffer: string, whole: string, frac: string) {
    && AllDigits(whole) && AllDigits(frac)
    && (buffer == whole + "." + frac || (frac == "" && buffer == whole))
  }

  lemma SpelledParts(buffer: string, whole: string, frac: string)
    requires Spells(buffer, whole, frac)
    ensures Frac(buffer) == frac && WithoutPoint(buffer) == whole + frac
  {
    if buffer == whole + "." + frac {
      SplitJoined(whole, frac);
      assert buffer[..|whole|] == whole && buffer[|whole| + 1..] == frac;
    } else {
      SplitWhole(whole);
      assert whole + frac == whole;
    }
  }

  /** Rounding the quotient half to even, as both BigInt helpers spell it. */
  lemma QuotientIsHalfEven(n: nat, d: nat)
    requires 0 < d
    ensures var q, twice := n / d, n % d * 2;
      (if twice > d || (twice == d && q % 2 == 1) then q + 1 else q) == HalfEven(n, d)
  {
  }

  /** Two spellings of one ratio round alike: the common factor cancels. */
  lemma SameRatioRoundsAlike(units: nat, a: Ratio, b: Ratio)
    requires 0 < a.scale && 0 < b.scale && a.num * b.scale == b.num * a.scale
    ensures HalfEven(units * (a.scale + a.num), 100 * a.scale) == HalfEven(units * (b.scale + b.num), 100 * b.scale)
  {
    var m, n := units * (a.scale + a.num), units * (b.scale + b.num);
    HalfEvenScale(b.scale, m, 100 * a.scale);
    HalfEvenScale(a.scale, n, 100 * b.scale);
    CrossScaled(units, a.scale, a.num, b.scale, b.num);
    assert b.scale * (100 * a.scale) == a.scale * (100 * b.scale);
  }

  lemma CrossScaled(units: nat, s: nat, n: nat, t: nat, m: nat)
    requires n * t == m * s
    ensures t * (units * (s + n)) == s * (units * (t + m))
  {
  }

  /** The ticket holds exactly what the server will hold, however the ratio is written. */
  lemma ReserveIsReserve(price: string, p: Px, qty: nat, buffer: string, whole: string, frac: string, ratio: Ratio)
    requires ReadUnsigned(price, 4).Some? && ReadUnsigned(price, 4).value == p
    requires Spells(buffer, whole, frac) && AllDigits(whole + frac)
    requires ratio.Valid() && Parse(whole + frac) * ratio.scale == ratio.num * Pow10(|frac|)
    ensures ReserveFromStrings(price, qty, buffer) == Some(CentsToString(ReserveWithBuffer(p, qty, ratio)))
  {
    hide ReadUnsigned, WithoutPoint, Frac, CentsToString, Pow10, Parse, ReserveWithBuffer, HalfEven;
    SpelledParts(buffer, whole, frac);
    var written := Ratio(Parse(whole + frac), Pow10(|frac|));
    ProductNat(p * qty, written.scale + written.num);
    QuotientIsHalfEven(p * qty * (written.scale + written.num), written.scale * 100);
    SameRatioRoundsAlike(p * qty, written, ratio);
    ReserveIsRounded(p, qty, ratio);
  }

  lemma ReserveIsRounded(p: Px, qty: nat, ratio: Ratio)
    requires ratio.Valid()
    ensures ReserveWithBuffer(p, qty, ratio) == HalfEven(p * qty * (ratio.scale + ratio.num), 100 * ratio.scale)
  {
  }

  // ---- the chart ----

  /** BigInt division truncates toward zero; this one rounds half to even, sign by sign. */
  function DivHalfEven(n: int, d: int): int
    requires d != 0
  {
    var q, twice := Abs(n) / Abs(d), Abs(n) % Abs(d) * 2;
    var rounded := if twice > Abs(d) || (twice == Abs(d) && q % 2 == 1) then q + 1 else q;
    if (n < 0) != (d < 0) then -rounded else rounded
  }

  /** It is the half-even quotient for all four sign combinations. */
  lemma DivIsHalfEven(n: int, d: int)
    requires d != 0
    ensures DivHalfEven(n, d) == if 0 < d then HalfEven(n, d) else HalfEven(-n, -d)
  {
    QuotientIsHalfEven(Abs(n), Abs(d));
    if (n < 0) != (d < 0) { HalfEvenOdd(Abs(n), Abs(d)); }
  }

  datatype PriceChange = PriceChange(absolute: string, percent: Option<string>, direction: int)

  function NoNegativeZero(s: string): string { if s == "-0.00" then "0.00" else s }

  function ChangeOf(start: string, end: string): Option<PriceChange> {
    match (ReadSigned(start, 4), ReadSigned(end, 4))
    case (Some(a), Some(b)) =>
      var diff := b - a;
      var absolute := Render(DivHalfEven(diff, 100), 2);
      var percent := if a == 0 then None else Some(NoNegativeZero(Render(DivHalfEven(diff * 10000, a), 2)));
      var direction := if absolute == "0.00" || absolute == "-0.00" then 0 else if diff < 0 then -1 else 1;
      Some(PriceChange(NoNegativeZero(absolute), percent, direction))
    case _ => None
  }

  lemma NeverNegativeZero(units: int)
    ensures Render(units, 2) != "-0.00" && (Render(units, 2) == "0.00" <==> units == 0)
  {
    assert Magnitude("-0.00") == "0.00" && Negative("-0.00");
    assert Magnitude("0.00") == "0.00" && !Negative("0.00");
    hide Render, ReadUnsigned, Magnitude, Negative, CentsToString, ToCents;
    ZeroReads();
    RenderInjective(units, 0, 2);
    RenderThenRead(units, 2);
  }

  function Sign(n: int): int { if n < 0 then -1 else if n == 0 then 0 else 1 }

  lemma RoundingKeepsSign(n: int, d: int)
    requires 0 < d
    ensures n <= 0 ==> HalfEven(n, d) <= 0
    ensures 0 <= n ==> 0 <= HalfEven(n, d)
  {
  }

  /** The chart's readout is the server's price move, digit for digit, and its arrow the move's sign. */
  lemma ChangeIsPriceDelta(start: string, end: string, a: Px, b: Px)
    requires ReadSigned(start, 4).Some? && ReadSigned(start, 4).value == a
    requires ReadSigned(end, 4).Some? && ReadSigned(end, 4).value == b
    ensures var move := PriceDelta(a, b);
      ChangeOf(start, end) ==
        Some(PriceChange(CentsToString(move.cents), Some(Render(move.basisPoints, 2)), Sign(move.cents)))
  {
    hide ReadSigned, Render, HalfEven, DivHalfEven;
    var move := PriceDelta(a, b);
    DivIsHalfEven(b - a, 100);
    DivIsHalfEven((b - a) * 10000, a);
    NeverNegativeZero(move.cents);
    NeverNegativeZero(move.basisPoints);
    RoundingKeepsSign(b - a, 100);
  }

  // ---- the transfer sheet ----

  /** The white space and line ends String.trim takes off. */
  predicate IsBlank(c: char) {
    c in "\t\n\U{000B}\U{000C}\r \U{00A0}\U{1680}\U{2028}\U{2029}\U{202F}\U{205F}\U{3000}\U{FEFF}"
        || '\U{2000}' <= c <= '\U{200A}'
  }

  function TrimStart(s: string): (r: string)
    ensures r == "" || !IsBlank(r[0])
    ensures |r| <= |s| && r == s[|s| - |r|..] && forall i | 0 <= i < |s| - |r| :: IsBlank(s[i])
  {
    if s == "" || !IsBlank(s[0]) then s else TrimStart(s[1..])
  }

  function TrimEnd(s: string): (r: string)
    ensures r <= s && (r == "" || !IsBlank(r[|r| - 1]))
    ensures forall i | |r| <= i < |s| :: IsBlank(s[i])
  {
    if s == "" || !IsBlank(s[|s| - 1]) then s else TrimEnd(s[..|s| - 1])
  }

  function WithoutCommas(s: string): (r: string)
    ensures ',' !in r
  {
    if s == "" then "" else WithoutCommas(s[..|s| - 1]) + if s[|s| - 1] == ',' then "" else [s[|s| - 1]]
  }

  /** What the user typed, commas and surrounding blanks taken out. */
  function ParseAmount(input: string): (r: Option<string>)
    ensures r.Some? ==> Canonical(r.value, 2) && ToCents(r.value).Some? && 0 <= ToCents(r.value).value
  {
    ParsePlain(TrimEnd(TrimStart(WithoutCommas(input))))
  }

  /** Whole dollars, or dollars and one or two decimals. */
  function ParsePlain(input: string): (r: Option<string>)
    ensures r.Some? ==> Canonical(r.value, 2) && ToCents(r.value).Some? && 0 <= ToCents(r.value).value
  {
    var whole := Whole(input);
    if whole == "" || !AllDigits(whole) then None
    else if |whole| == |input| then
      CentsRoundTrip(Parse(whole) * 100, "");
      Some(CentsToString(Parse(whole) * 100))
    else
      var frac := input[|whole| + 1..];
      if 1 <= |frac| <= 2 && AllDigits(frac) then
        FittedParses(frac, 2);
        CentsRoundTrip(Parse(whole) * 100 + Parse(Fitted(frac, 2)), "");
        Some(CentsToString(Parse(whole) * 100 + Parse(Fitted(frac, 2))))
      else None
  }

  function NotComma(c: char): bool { c != ',' }

  /** Digits, or digits, a point, and one or two more. */
  ghost predicate Spelled(s: string, whole: string, frac: string) {
    && whole != "" && AllDigits(whole) && AllDigits(frac) && |frac| <= 2
    && s == if frac == "" then whole else whole + "." + frac
  }

  /** The amount typed between the blanks, commas aside. */
  ghost predicate TypedAs(input: string, i: nat, j: nat, whole: string, frac: string) {
    var plain := Where(input, NotComma);
    && i <= j <= |plain| && Spelled(plain[i..j], whole, frac)
    && (forall k | 0 <= k < i :: IsBlank(plain[k])) && (forall k | j <= k < |plain| :: IsBlank(plain[k]))
  }

  lemma {:induction false} CommasOut(s: string)
    ensures WithoutCommas(s) == Where(s, NotComma)
  {
    if s != "" { CommasOut(s[..|s| - 1]); }
  }

  lemma {:induction false} TrimmedStart(s: string, i: nat)
    requires i < |s| && !IsBlank(s[i]) && forall k | 0 <= k < i :: IsBlank(s[k])
    ensures TrimStart(s) == s[i..]
  {
    if i != 0 { TrimmedStart(s[1..], i - 1); }
  }

  lemma {:induction false} TrimmedEnd(s: string, j: nat)
    requires 0 < j <= |s| && !IsBlank(s[j - 1]) && forall k | j <= k < |s| :: IsBlank(s[k])
    ensures TrimEnd(s) == s[..j]
  {
    if j != |s| {
      TrimmedEnd(s[..|s| - 1], j);
      assert s[..|s| - 1][..j] == s[..j];
    } else {
      assert s[..j] == s;
    }
  }

  lemma DigitsAreNotBlank(c: char)
    requires IsDigit(c)
    ensures !IsBlank(c)
  {
  }

  lemma Trimmed(plain: string, i: nat, j: nat)
    requires i < j <= |plain| && IsDigit(plain[i]) && IsDigit(plain[j - 1])
    requires (forall k | 0 <= k < i :: IsBlank(plain[k])) && (forall k | j <= k < |plain| :: IsBlank(plain[k]))
    ensures TrimStart(plain) == plain[i..] && TrimEnd(plain[i..]) == plain[i..j]
  {
    hide *;
    DigitsAreNotBlank(plain[i]);
    DigitsAreNotBlank(plain[j - 1]);
    TrimmedStart(plain, i);
    TailTrimmed(plain, plain[i..], i, j);
  }

  lemma TailTrimmed(plain: string, rest: string, i: nat, j: nat)
    requires i < j <= |plain| && !IsBlank(plain[j - 1]) && rest == plain[i..]
    requires forall k | j <= k < |plain| :: IsBlank(plain[k])
    ensures TrimEnd(rest) == plain[i..j]
  {
    hide *;
    assert rest[j - i - 1] == plain[j - 1];
    forall k | j - i <= k < |rest| ensures IsBlank(rest[k]) { assert rest[k] == plain[k + i]; }
    TrimmedEnd(rest, j - i);
    SliceOfSlice(plain, i, j);
  }

  lemma SliceOfSlice(s: string, i: nat, j: nat)
    requires i <= j <= |s|
    ensures s[i..][..j - i] == s[i..j]
  {
  }

  lemma SpelledSplits(s: string, whole: string, frac: string)
    requires Spelled(s, whole, frac)
    ensures s != "" && IsDigit(s[0]) && IsDigit(s[|s| - 1]) && Whole(s) == whole
    ensures |whole| == |s| <==> frac == ""
    ensures frac != "" ==> s[|whole| + 1..] == frac
  {
    if frac == "" { SplitWhole(whole); } else { SplitJoined(whole, frac); }
  }

  /** What a plain amount is worth. */
  lemma PlainWorth(s: string, whole: string, frac: string)
    requires Spelled(s, whole, frac)
    ensures ParsePlain(s).Some?
    ensures ToCents(ParsePlain(s).value) == Some(100 * Parse(whole) + Parse(frac) * Pow10(2 - |frac|))
  {
    hide ToCents, CentsToString, Spelled, Parse, Pow10, Whole, Fitted;
    SpelledIsDigits(s, whole, frac);
    SpelledSplits(s, whole, frac);
    if frac == "" {
      NothingParsed();
      CentsRoundTrip(Parse(whole) * 100, "");
    } else {
      FittedParses(frac, 2);
      CentsRoundTrip(Parse(whole) * 100 + Parse(Fitted(frac, 2)), "");
    }
  }

  lemma SpelledIsDigits(s: string, whole: string, frac: string)
    requires Spelled(s, whole, frac)
    ensures whole != "" && AllDigits(whole) && AllDigits(frac) && |frac| <= 2
  {
  }

  lemma NothingParsed()
    ensures Parse("") * Pow10(2) == 0
  {
  }

  /** An amount typed with commas and surrounding blanks is read for exactly what its digits say. */
  lemma AmountRead(input: string, i: nat, j: nat, whole: string, frac: string)
    requires TypedAs(input, i, j, whole, frac)
    ensures ParseAmount(input).Some?
    ensures ToCents(ParseAmount(input).value) == Some(100 * Parse(whole) + Parse(frac) * Pow10(2 - |frac|))
  {
    hide ToCents, Spelled, IsBlank, ParsePlain, Parse, Pow10, IsDigit, TrimStart, TrimEnd, WithoutCommas, Whole;
    CommasOut(input);
    var plain := Where(input, NotComma);
    SpelledSplits(plain[i..j], whole, frac);
    SpelledIsDigits(plain[i..j], whole, frac);
    Trimmed(plain, i, j);
    PlainWorth(plain[i..j], whole, frac);
  }

  /** And nothing else is read. */
  lemma OnlyAmountsRead(input: string) returns (i: nat, j: nat, whole: string, frac: string)
    requires ParseAmount(input).Some?
    ensures TypedAs(input, i, j, whole, frac)
  {
    hide ToCents, CentsToString, Canonical, IsBlank, TrimStart, TrimEnd, WithoutCommas, ParsePlain, Where, Spelled;
    CommasOut(input);
    var plain := Where(input, NotComma);
    i, j := Trim(plain);
    whole, frac := PlainParts(plain[i..j]);
  }

  lemma Trim(plain: string) returns (i: nat, j: nat)
    ensures i <= j <= |plain| && TrimEnd(TrimStart(plain)) == plain[i..j]
    ensures (forall k | 0 <= k < i :: IsBlank(plain[k])) && (forall k | j <= k < |plain| :: IsBlank(plain[k]))
  {
    hide IsBlank, TrimStart, TrimEnd;
    var start := TrimStart(plain);
    i := |plain| - |start|;
    j := i + |TrimEnd(start)|;
    assert TrimEnd(start) == start[..j - i] == plain[i..j];
    forall k | j <= k < |plain| ensures IsBlank(plain[k]) { assert plain[k] == start[k - i]; }
  }

  lemma PlainParts(s: string) returns (whole: string, frac: string)
    requires ParsePlain(s).Some?
    ensures Spelled(s, whole, frac)
  {
    hide ToCents, CentsToString, Canonical, Parse;
    whole, frac := Whole(s), "";
    if |whole| == |s| {
      assert whole == s;
    } else {
      frac := s[|whole| + 1..];
      assert s == whole + "." + frac;
    }
  }

  datatype SheetRules = SheetRules(direction: Direction, minAmount: string, maxPerTransfer: string,
                                   depositRemaining: string, withdrawable: string)

  predicate AtMost(cents: int, limit: string) {
    ToCents(limit).Some? && cents <= ToCents(limit).value
  }

  /** checkTransferAmount: the amount when the sheet lets it through. */
  function CheckTransferAmount(input: string, rules: SheetRules): Option<string> {
    var amount := ParseAmount(input);
    if amount.None? then None
    else
      var cents := ToCents(amount.value).value;
      if ToCents(rules.minAmount).None? || cents < ToCents(rules.minAmount).value then None
      else if !AtMost(cents, rules.maxPerTransfer) then None
      else if rules.direction.Deposit? && !AtMost(cents, rules.depositRemaining) then None
      else if rules.direction.Withdrawal? && !AtMost(cents, rules.withdrawable) then None
      else amount
  }

  /** What the summary calls withdrawable: nothing unless the account is ACTIVE. */
  function Withdrawable(s: State): Money {
    if s.status.Active? then Transfers.Floored(FreeCash(s)) else 0
  }

  /** The rules as the server serialises them for an account. */
  function RulesFor(s: State, direction: Direction, now: int): SheetRules {
    SheetRules(direction, CentsToString(s.cfg.minAmount), CentsToString(s.cfg.maxPerTransfer),
      CentsToString(Transfers.Floored(s.cfg.depositCap - Transfers.DepositedInWindow(s, now))),
      CentsToString(Withdrawable(s)))
  }

  /**
   * The sheet lets an amount through exactly when the server's rules would; a withdrawal from an
   * account that is not ACTIVE never gets that far.
   */
  lemma SheetMirrorsServer(s: State, direction: Direction, now: int, input: string)
    ensures var sheet := CheckTransferAmount(input, RulesFor(s, direction, now));
      var amount := ParseAmount(input);
      && (s.status.Active? || direction.Deposit? ==>
           (sheet.Some? <==> amount.Some? && Transfers.RequestOk(s, direction, ToCents(amount.value).value, now)))
      && (!s.status.Active? && direction.Withdrawal? && 0 < s.cfg.minAmount ==> sheet.None?)
      && (sheet.Some? ==> sheet == amount)
  {
    hide ToCents, CentsToString, ParseAmount, Transfers.DepositedInWindow, FreeCash;
    CentsRoundTrip(s.cfg.minAmount, "");
    CentsRoundTrip(s.cfg.maxPerTransfer, "");
    CentsRoundTrip(Transfers.Floored(s.cfg.depositCap - Transfers.DepositedInWindow(s, now)), "");
    CentsRoundTrip(Withdrawable(s), "");
  }

  /** What the sheet is told, in the account's own rows: room left in the window, and free cash, never below zero. */
  lemma RulesSay(s: State, direction: Direction, now: int)
    ensures var rules, since := RulesFor(s, direction, now), now - s.cfg.depositWindow;
      var room := s.cfg.depositCap - SumOf(Where(s.transfers, Transfers.StandingDeposit(since)), AmountAsked)
                  - (if since <= s.openedAt then s.startingCash else 0);
      var free := s.cash - SumOf(Where(s.orders, OpenBuy), ReservedCash)
                  - SumOf(Where(s.transfers, PendingWithdrawal), AmountAsked);
      && ToCents(rules.minAmount) == Some(s.cfg.minAmount) && ToCents(rules.maxPerTransfer) == Some(s.cfg.maxPerTransfer)
      && ToCents(rules.depositRemaining) == Some(if room < 0 then 0 else room)
      && ToCents(rules.withdrawable) == Some(if !s.status.Active? || free < 0 then 0 else free)
  {
    hide ToCents, CentsToString, SumOf, Where, FreeCash;
    var since := now - s.cfg.depositWindow;
    BuyingPowerIs(s);
    SumWhere(s.transfers, Transfers.StandingDeposit(since), AmountAsked, Transfers.CountsSince(since));
    CentsRoundTrip(s.cfg.minAmount, "");
    CentsRoundTrip(s.cfg.maxPerTransfer, "");
    CentsRoundTrip(Transfers.Floored(s.cfg.depositCap - Transfers.DepositedInWindow(s, now)), "");
    CentsRoundTrip(Withdrawable(s), "");
  }
}

/** Decimal strings as the browser reads and writes them: BigInt digits around one point. */
module Decimals {
  import opened Wrappers
  import opened MoneyMath

  // ---- BigInt and string primitives ----

  predicate IsDigit(c: char) { '0' <= c <= '9' }

  predicate AllDigits(s: string) { forall i | 0 <= i < |s| :: IsDigit(s[i]) }

  function DigitOf(d: nat): (c: char)
    requires d < 10
    ensures IsDigit(c)
  {
    "0123456789"[d]
  }

  function ValueOf(c: char): (d: nat)
    requires IsDigit(c)
    ensures d < 10 && DigitOf(d) == c && d == c as int - '0' as int
  {
    if c == '0' then 0 else if c == '1' then 1 else if c == '2' then 2 else if c == '3' then 3
    else if c == '4' then 4 else if c == '5' then 5 else if c == '6' then 6 else if c == '7' then 7
    else if c == '8' then 8 else 9
  }

  /** BigInt.toString of a non-negative integer. */
  function Digits(n: nat): (s: string)
    ensures |s| > 0 && AllDigits(s)
  {
    if n < 10 then [DigitOf(n)] else Digits(n / 10) + [DigitOf(n % 10)]
  }

  /** BigInt of a digit string; the empty one counts as "0" at every call. */
  function Parse(s: string): nat
    requires AllDigits(s)
  {
    if s == "" then 0 else 10 * Parse(s[..|s| - 1]) + ValueOf(s[|s| - 1])
  }

  lemma {:induction false} ParseDigits(n: nat)
    ensures Parse(Digits(n)) == n
  {
    if n < 10 {
      assert [DigitOf(n)][..0] == "";
      ValueOfDigit(n);
    } else {
      var s := Digits(n / 10) + [DigitOf(n % 10)];
      assert s[..|s| - 1] == Digits(n / 10);
      ParseDigits(n / 10);
      ValueOfDigit(n % 10);
    }
  }

  lemma ValueOfDigit(d: nat)
    requires d < 10
    ensures ValueOf(DigitOf(d)) == d
  {
  }

  function Zeros(n: nat): string { if n == 0 then "" else Zeros(n - 1) + "0" }

  function PadStart(s: string, width: nat): string {
    if |s| < width then Zeros(width - |s|) + s else s
  }

  lemma {:induction false} ZerosAre(n: nat)
    ensures |Zeros(n)| == n && AllDigits(Zeros(n)) && Parse(Zeros(n)) == 0
    ensures n > 0 ==> Zeros(n) == "0" + Zeros(n - 1)
  {
    if n > 0 {
      ZerosAre(n - 1);
      assert Zeros(n)[..n - 1] == Zeros(n - 1);
      if n > 1 { assert Zeros(n - 1) == Zeros(n - 2) + "0"; }
    }
  }

  function Pow10(n: nat): (p: nat)
    ensures 0 < p
  {
    if n == 0 then 1 else 10 * Pow10(n - 1)
  }

  lemma ShiftOut(x: nat, p: nat, y: nat, d: nat)
    ensures 10 * (x * p + y) + d == x * (10 * p) + (10 * y + d)
  {
  }

  lemma {:induction false} ParseConcat(a: string, b: string)
    requires AllDigits(a) && AllDigits(b)
    ensures AllDigits(a + b) && Parse(a + b) == Parse(a) * Pow10(|b|) + Parse(b)
  {
    hide ValueOf;
    if b == "" {
      assert a + b == a;
    } else {
      var n := |b| - 1;
      assert (a + b)[..|a| + n] == a + b[..n];
      ParseConcat(a, b[..n]);
      ShiftOut(Parse(a), Pow10(n), Parse(b[..n]), ValueOf(b[n]));
    }
  }

  lemma {:induction false} LeadingZeros(n: nat, s: string)
    requires AllDigits(s)
    ensures |Zeros(n)| == n && AllDigits(Zeros(n) + s) && Parse(Zeros(n) + s) == Parse(s)
  {
    ZerosAre(n);
    if s == "" {
      assert Zeros(n) + s == Zeros(n);
    } else {
      LeadingZeros(n, s[..|s| - 1]);
      assert (Zeros(n) + s)[..n + |s| - 1] == Zeros(n) + s[..|s| - 1];
    }
  }

  lemma PadStartParses(s: string, width: nat)
    requires AllDigits(s)
    ensures AllDigits(PadStart(s, width)) && Parse(PadStart(s, width)) == Parse(s)
    ensures |PadStart(s, width)| == if |s| < width then width else |s|
  {
    if |s| < width { LeadingZeros(width - |s|, s); }
  }

  lemma DigitsOne(d: nat)
    requires d < 10
    ensures Digits(d) == [DigitOf(d)]
  {
  }

  lemma DigitsStep(high: nat, d: nat)
    requires 0 < high && d < 10
    ensures Digits(10 * high + d) == Digits(high) + [DigitOf(d)]
  {
    hide DigitOf;
    assert (10 * high + d) / 10 == high && (10 * high + d) % 10 == d;
  }

  lemma ParseStep(s: string)
    requires |s| > 0 && AllDigits(s)
    ensures Parse(s) == 10 * Parse(s[..|s| - 1]) + ValueOf(s[|s| - 1])
  {
    hide ValueOf;
  }

  lemma LastDigit(s: string)
    requires |s| > 0 && AllDigits(s)
    ensures s == s[..|s| - 1] + [DigitOf(ValueOf(s[|s| - 1]))]
  {
    hide *;
    assert s == s[..|s| - 1] + [s[|s| - 1]];
  }

  lemma ParseNothing()
    ensures Parse("") == 0
  {
  }

  lemma PadMore(digits: string, c: char, width: nat)
    requires |digits| <= width
    ensures PadStart(digits + [c], width + 1) == PadStart(digits, width) + [c]
  {
    hide Zeros;
    var zeros := Zeros(width - |digits|);
    assert zeros + (digits + [c]) == zeros + digits + [c];
  }

  lemma PadOne(c: char, n: nat)
    ensures PadStart([c], n + 1) == Zeros(n) + [c]
  {
  }

  lemma PadZero(n: nat)
    requires 0 < n
    ensures PadStart(Digits(0), n) == Zeros(n)
  {
  }

  /** A digit string is recovered from its value by padding back its leading zeros. */
  lemma {:induction false} PadRestores(s: string)
    requires |s| > 0 && AllDigits(s)
    ensures |Digits(Parse(s))| <= |s| && PadStart(Digits(Parse(s)), |s|) == s
  {
    hide *;
    HighDigits(s);
    var n := |s| - 1;
    var high, d := s[..n], ValueOf(s[n]);
    ParseStep(s);
    LastDigit(s);
    if n == 0 {
      ParseNothing();
      DigitsOne(d);
      WidthReached([DigitOf(d)]);
    } else {
      PadRestores(high);
      if Parse(high) == 0 {
        PadZero(n);
        DigitsOne(d);
        PadOne(DigitOf(d), n);
      } else {
        DigitsStep(Parse(high), d);
        PadMore(Digits(Parse(high)), DigitOf(d), n);
      }
    }
  }

  lemma HighDigits(s: string)
    requires |s| > 0 && AllDigits(s)
    ensures AllDigits(s[..|s| - 1]) && IsDigit(s[|s| - 1])
  {
  }

  lemma WidthReached(s: string)
    ensures PadStart(s, |s|) == s
  {
  }

  /** No leading zero: nothing to pad back. */
  lemma {:induction false} NoLeadingZero(s: string)
    requires |s| > 0 && AllDigits(s) && s[0] != '0'
    ensures Parse(s) > 0 && Digits(Parse(s)) == s
  {
    hide Digits, Parse;
    var n := |s| - 1;
    var d := ValueOf(s[n]);
    ParseStep(s);
    LastDigit(s);
    if n == 0 {
      ParseNothing();
      DigitsOne(d);
    } else {
      NoLeadingZero(s[..n]);
      DigitsStep(Parse(s[..n]), d);
    }
  }

  // ---- splitting at the point ----

  function IndexOf(s: string, c: char): (at: nat)
    ensures at <= |s| && c !in s[..at] && (at < |s| ==> s[at] == c)
  {
    if s == "" then 0
    else if s[0] == c then 0
    else
      var rest := IndexOf(s[1..], c);
      assert s[..rest + 1] == [s[0]] + s[1..][..rest];
      rest + 1
  }

  lemma {:induction false} FirstPoint(a: string, rest: string)
    requires AllDigits(a) && (rest == "" || rest[0] == '.')
    ensures IndexOf(a + rest, '.') == |a|
  {
    if a == "" {
      assert a + rest == rest;
    } else {
      FirstPoint(a[1..], rest);
      assert (a + rest)[1..] == a[1..] + rest;
    }
  }

  /** `const [whole = "0", frac = ""] = s.split(".")`. */
  function Whole(s: string): string { s[..IndexOf(s, '.')] }

  function Frac(s: string): string {
    var at := IndexOf(s, '.');
    if at == |s| then "" else s[at + 1..][..IndexOf(s[at + 1..], '.')]
  }

  lemma SplitJoined(whole: string, frac: string)
    requires AllDigits(whole) && AllDigits(frac)
    ensures var s := whole + "." + frac;
      IndexOf(s, '.') == |whole| && Whole(s) == whole && Frac(s) == frac
  {
    var s := whole + "." + frac;
    assert s == whole + ("." + frac);
    FirstPoint(whole, "." + frac);
    assert s[|whole| + 1..] == frac;
    FirstPoint(frac, "");
    assert frac + "" == frac;
  }

  lemma SplitWhole(whole: string)
    requires AllDigits(whole)
    ensures IndexOf(whole, '.') == |whole| && Whole(whole) == whole && Frac(whole) == ""
  {
  }

  // ---- reading ----

  function Signed(negative: bool, magnitude: nat): int { if negative then 0 - magnitude else magnitude }

  predicate Negative(s: string) { s != "" && s[0] == '-' }

  function Magnitude(s: string): string { if Negative(s) then s[1..] else s }

  /** frac.padEnd(dp, "0").slice(0, dp). */
  function Fitted(frac: string, dp: nat): (r: string)
    ensures |r| == dp
  {
    if |frac| < dp then ZerosAre(dp - |frac|); frac + Zeros(dp - |frac|) else frac[..dp]
  }

  /** An unsigned decimal scaled by 10^dp, extra places truncated; None outside the digit grammar. */
  function ReadUnsigned(s: string, dp: nat): Option<nat> {
    var whole, frac := Whole(s), Fitted(Frac(s), dp);
    if AllDigits(whole) && AllDigits(frac) then Some(Parse(whole) * Pow10(dp) + Parse(frac)) else None
  }

  function ReadSigned(s: string, dp: nat): Option<int> {
    match ReadUnsigned(Magnitude(s), dp)
    case Some(units) => Some(Signed(Negative(s), units))
    case None => None
  }

  /** Short fractions are padded with zeros, so "200.1" and "200.1000" read alike. */
  lemma FittedParses(frac: string, dp: nat)
    requires AllDigits(frac) && |frac| <= dp
    ensures AllDigits(Fitted(frac, dp)) && Parse(Fitted(frac, dp)) == Parse(frac) * Pow10(dp - |frac|)
  {
    if |frac| < dp {
      ZerosAre(dp - |frac|);
      ParseConcat(frac, Zeros(dp - |frac|));
    } else {
      assert frac[..dp] == frac;
    }
  }

  lemma {:induction false} Pow10Adds(a: nat, b: nat)
    ensures Pow10(a + b) == Pow10(a) * Pow10(b)
  {
    if b > 0 {
      Pow10Adds(a, b - 1);
      TenOut(Pow10(a), Pow10(b - 1));
    }
  }

  lemma TenOut(x: nat, y: nat)
    ensures 10 * (x * y) == x * (10 * y)
  {
  }

  lemma {:induction false} PartBelow(s: string)
    requires AllDigits(s)
    ensures Parse(s) < Pow10(|s|)
  {
    if s != "" { PartBelow(s[..|s| - 1]); }
  }

  lemma CutOff(high: nat, low: nat, p: nat)
    requires low < p
    ensures (high * p + low) / p == high
  {
    var q, rest := (high * p + low) / p, (high * p + low) % p;
    assert q * p + rest == high * p + low;
    assert (q - high) * p == q * p - high * p && (high - q) * p == high * p - q * p;
    Between(q - high, p, low - rest);
  }

  lemma Between(k: int, p: nat, gap: int)
    requires k * p == gap && 0 - p < gap < p
    ensures k == 0
  {
    if 0 < k { MoreThan(k, p); }
    if k < 0 {
      assert (-k) * p == -(k * p);
      MoreThan(-k, p);
    }
  }

  lemma MoreThan(k: int, p: nat)
    requires 0 < k
    ensures p <= k * p
  {
    assert (k - 1) * p == k * p - p;
    ProductNat(k - 1, p);
  }

  lemma QuotientNat(n: nat, d: nat)
    requires 0 < d
    ensures 0 <= n / d
  {
  }

  /** A number of `places` decimals at `dp` of them: zeros added, or digits cut off. */
  function CutTo(n: nat, places: nat, dp: nat): nat {
    if places <= dp then ProductNat(n, Pow10(dp - places)); n * Pow10(dp - places)
    else QuotientNat(n, Pow10(places - dp)); n / Pow10(places - dp)
  }

  /** A decimal is read as its digits say, padded to the places or cut off at them, never rounded. */
  lemma DecimalRead(negative: bool, whole: string, frac: string, dp: nat)
    requires whole != "" && AllDigits(whole) && AllDigits(frac)
    ensures AllDigits(whole + frac)
    ensures ReadSigned(Joined(negative, whole, frac), dp) ==
      Some(Signed(negative, CutTo(Parse(whole + frac), |frac|, dp)))
  {
    hide Parse, Pow10, Signed, Joined, Whole, Frac, Fitted, Negative, Magnitude;
    JoinedParts(negative, whole, frac);
    SplitJoined(whole, frac);
    ParseConcat(whole, frac);
    if |frac| <= dp {
      FittedParses(frac, dp);
      Pow10Adds(|frac|, dp - |frac|);
      Spread(Parse(whole), Pow10(|frac|), Parse(frac), Pow10(dp - |frac|));
    } else {
      var kept, cut := frac[..dp], frac[dp..];
      FittedCut(frac, dp);
      assert whole + frac == whole + kept + cut && AllDigits(whole + kept);
      ParseConcat(whole, kept);
      ParseConcat(whole + kept, cut);
      PartBelow(cut);
      CutOff(Parse(whole + kept), Parse(cut), Pow10(|cut|));
    }
  }

  lemma Spread(whole: nat, p: nat, frac: nat, q: nat)
    ensures (whole * p + frac) * q == whole * (p * q) + frac * q
  {
  }

  lemma FittedCut(frac: string, dp: nat)
    requires dp < |frac|
    ensures Fitted(frac, dp) == frac[..dp]
  {
  }

  // ---- writing ----

  function Joined(negative: bool, whole: string, frac: string): string {
    (if negative then "-" else "") + (whole + "." + frac)
  }

  /** The digits of |units|, at least one of them before the point. */
  function Padded(units: int, dp: nat): (s: string)
    ensures dp < |s| && AllDigits(s) && Parse(s) == Abs(units)
  {
    PadStartParses(Digits(Abs(units)), dp + 1);
    ParseDigits(Abs(units));
    PadStart(Digits(Abs(units)), dp + 1)
  }

  /** centsToString, and unitsToString for any positive number of places. */
  function Render(units: int, dp: nat): string {
    var digits := Padded(units, dp);
    Joined(units < 0, digits[..|digits| - dp], digits[|digits| - dp..])
  }

  lemma JoinedParts(negative: bool, whole: string, frac: string)
    requires whole != "" && AllDigits(whole)
    ensures var s := Joined(negative, whole, frac);
      Negative(s) == negative && Magnitude(s) == whole + "." + frac
  {
  }

  lemma {:induction false} ReadParts(whole: string, frac: string)
    requires AllDigits(whole) && AllDigits(frac)
    ensures AllDigits(whole + frac) && ReadUnsigned(whole + "." + frac, |frac|) == Some(Parse(whole + frac))
  {
    SplitJoined(whole, frac);
    FittedWhole(frac);
    ParseConcat(whole, frac);
  }

  lemma FittedWhole(frac: string)
    ensures Fitted(frac, |frac|) == frac
  {
  }

  lemma ReadJoined(negative: bool, whole: string, frac: string)
    requires whole != "" && AllDigits(whole) && AllDigits(frac)
    ensures AllDigits(whole + frac)
    ensures ReadSigned(Joined(negative, whole, frac), |frac|) == Some(Signed(negative, Parse(whole + frac)))
  {
    JoinedParts(negative, whole, frac);
    ReadParts(whole, frac);
  }

  /** Reading back what was written is exact for every integer, the sign included. */
  lemma RenderThenRead(units: int, dp: nat)
    ensures ReadSigned(Render(units, dp), dp) == Some(units)
    ensures 0 <= units ==> ReadUnsigned(Render(units, dp), dp) == Some(units)
  {
    hide ReadSigned, ReadUnsigned, Parse, Padded, Joined, IsDigit;
    var digits := Padded(units, dp);
    var whole, frac := digits[..|digits| - dp], digits[|digits| - dp..];
    assert digits == whole + frac;
    ReadJoined(units < 0, whole, frac);
    if 0 <= units {
      ReadParts(whole, frac);
      JoinedUnsigned(whole, frac);
    }
  }

  lemma JoinedUnsigned(whole: string, frac: string)
    ensures Joined(false, whole, frac) == whole + "." + frac
  {
  }

  /** One whole part without spare leading zeros, exactly dp places, no negative zero. */
  ghost predicate CanonicalParts(negative: bool, whole: string, frac: string, dp: nat) {
    && AllDigits(whole) && AllDigits(frac) && whole != "" && |frac| == dp
    && (whole[0] == '0' ==> whole == "0")
    && (negative ==> exists i | 0 <= i < |whole + frac| :: (whole + frac)[i] != '0')
  }

  ghost predicate Canonical(s: string, dp: nat) {
    exists negative, whole, frac :: CanonicalParts(negative, whole, frac, dp) && s == Joined(negative, whole, frac)
  }

  lemma {:induction false} DigitsStart(n: nat)
    requires 0 < n
    ensures Digits(n)[0] != '0'
  {
    if n < 10 {
      assert n == 1 || n == 2 || n == 3 || n == 4 || n == 5 || n == 6 || n == 7 || n == 8 || n == 9;
    } else {
      DigitsStart(n / 10);
    }
  }

  lemma {:induction false} ParsesToZero(s: string)
    requires AllDigits(s)
    ensures Parse(s) == 0 <==> forall i | 0 <= i < |s| :: s[i] == '0'
  {
    if s != "" {
      ParsesToZero(s[..|s| - 1]);
      assert forall i | 0 <= i < |s| - 1 :: s[..|s| - 1][i] == s[i];
    }
  }

  lemma RenderIsCanonical(units: int, dp: nat)
    ensures Canonical(Render(units, dp), dp)
  {
    var digits := Padded(units, dp);
    var whole, frac := digits[..|digits| - dp], digits[|digits| - dp..];
    assert digits == whole + frac;
    ParsesToZero(digits);
    WholeIsTight(units, dp);
    assert CanonicalParts(units < 0, whole, frac, dp);
  }

  lemma WholeIsTight(units: int, dp: nat)
    ensures var digits := Padded(units, dp); digits[0] == '0' ==> |digits| == dp + 1
  {
    DigitsOne(0);
    hide Digits, DigitOf, Parse, Zeros;
    if units != 0 { DigitsStart(Abs(units)); }
    PadStartParses(Digits(Abs(units)), dp + 1);
  }

  lemma RenderParts(negative: bool, whole: string, frac: string, dp: nat)
    requires CanonicalParts(negative, whole, frac, dp)
    ensures AllDigits(whole + frac)
    ensures Render(Signed(negative, Parse(whole + frac)), dp) == Joined(negative, whole, frac)
  {
    hide Digits, Parse;
    var all := whole + frac;
    var n := Signed(negative, Parse(all));
    ParsesToZero(all);
    assert negative == (n < 0) && Abs(n) == Parse(all);
    TightPadding(whole, frac);
    assert Padded(n, dp) == all;
    assert all[..|all| - dp] == whole && all[|all| - dp..] == frac;
  }

  /** Writing what was read is the identity on canonical strings. */
  lemma ReadThenRender(s: string, dp: nat)
    requires Canonical(s, dp)
    ensures ReadSigned(s, dp).Some? && Render(ReadSigned(s, dp).value, dp) == s
  {
    var negative, whole, frac :| CanonicalParts(negative, whole, frac, dp) && s == Joined(negative, whole, frac);
    ReadJoined(negative, whole, frac);
    RenderParts(negative, whole, frac, dp);
  }

  lemma {:induction false} TightPadding(whole: string, frac: string)
    requires AllDigits(whole) && AllDigits(frac) && whole != ""
    requires whole[0] == '0' ==> whole == "0"
    ensures AllDigits(whole + frac) && PadStart(Digits(Parse(whole + frac)), |frac| + 1) == whole + frac
  {
    hide Digits, Parse;
    var all := whole + frac;
    assert all[0] == whole[0];
    if whole[0] == '0' {
      PadRestores(all);
    } else {
      NoLeadingZero(all);
    }
  }

  /** Canonical strings and integers are in one-to-one correspondence. */
  lemma RenderInjective(a: int, b: int, dp: nat)
    ensures Render(a, dp) == Render(b, dp) <==> a == b
  {
    RenderThenRead(a, dp);
    RenderThenRead(b, dp);
  }
}

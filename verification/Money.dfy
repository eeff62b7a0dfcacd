/**
 * The financial value objects as integers: Money in cents, Px (prices) in ten-thousandths of
 * a dollar, share quantities as nat, and a position's cost basis in ten-thousandths.
 * Every derivation rounds exactly once, half to even.
 */
module MoneyMath {
  import opened Wrappers

  type Money = int

  function Abs(x: int): nat { if x < 0 then -x else x }

  type Px = p: int | 0 < p witness 1

  /** q is n/d rounded to the nearest integer, ties to the even one. */
  ghost predicate IsHalfEven(n: int, d: int, q: int)
    requires 0 < d
  {
    && -d <= 2 * (n - q * d) <= d
    && (2 * (n - q * d) == d || 2 * (n - q * d) == -d ==> q % 2 == 0)
  }

  function HalfEven(n: int, d: int): (q: int)
    requires 0 < d
    ensures IsHalfEven(n, d, q)
  {
    var q, rest := n / d, n % d;
    assert n == q * d + rest;
    if 2 * rest > d || (2 * rest == d && q % 2 == 1) then
      assert (q + 1) * d == q * d + d; q + 1
    else q
  }

  lemma ProductNat(a: nat, b: nat)
    ensures 0 <= a * b
  {
  }

  lemma AtMostOne(k: int, d: int)
    requires 0 < d && k * d <= d
    ensures k <= 1
  {
  }

  /** Half-even rounding has exactly one answer. */
  lemma HalfEvenUnique(n: int, d: int, p: int, q: int)
    requires 0 < d && IsHalfEven(n, d, p) && IsHalfEven(n, d, q)
    ensures p == q
  {
    assert (q - p) * d == q * d - p * d;
    assert (p - q) * d == p * d - q * d;
    AtMostOne(q - p, d);
    AtMostOne(p - q, d);
  }

  lemma NearestMonotone(n: int, m: int, d: int, p: int, q: int)
    requires 0 < d && n <= m && IsHalfEven(n, d, p) && IsHalfEven(m, d, q)
    ensures p <= q
  {
    assert (p - q) * d == p * d - q * d;
    AtMostOne(p - q, d);
  }

  lemma HalfEvenMonotone(n: int, m: int, d: int)
    requires 0 < d && n <= m
    ensures HalfEven(n, d) <= HalfEven(m, d)
  {
    NearestMonotone(n, m, d, HalfEven(n, d), HalfEven(m, d));
  }

  lemma NearestNonNegative(n: int, d: int, q: int)
    requires 0 < d && 0 <= n && IsHalfEven(n, d, q)
    ensures 0 <= q
  {
  }

  /** Whole quotients are not rounded at all. */
  lemma HalfEvenExact(k: int, d: int)
    requires 0 < d
    ensures HalfEven(k * d, d) == k
  {
  }

  /** Rounding is symmetric around zero. */
  lemma HalfEvenOdd(n: int, d: int)
    requires 0 < d
    ensures HalfEven(-n, d) == -HalfEven(n, d)
  {
    var q := HalfEven(n, d);
    assert (-q) * d == -(q * d);
    assert (-q) % 2 == 0 <==> q % 2 == 0;
    HalfEvenUnique(-n, d, HalfEven(-n, d), -q);
  }

  lemma Factored(c: int, n: int, d: int, q: int)
    ensures c * n - q * (c * d) == c * (n - q * d)
  {
    assert q * (c * d) == c * (q * d);
  }

  lemma Doubled(c: int, gap: int)
    ensures 2 * (c * gap) == c * (2 * gap)
  {
  }

  lemma ScaledIsHalfEven(c: int, n: int, d: int, q: int)
    requires 0 < c && 0 < d && 0 < c * d && IsHalfEven(n, d, q)
    ensures IsHalfEven(c * n, c * d, q)
  {
    var gap := n - q * d;
    Factored(c, n, d, q);
    Doubled(c, gap);
    Stretch(c, 2 * gap, d);
    Stretch(c, -d, 2 * gap);
    if c * (2 * gap) == c * d { Cancel(c, 2 * gap, d); }
    if c * (2 * gap) == c * -d { Cancel(c, 2 * gap, -d); }
  }

  /** A common factor of numerator and denominator cancels. */
  lemma HalfEvenScale(c: int, n: int, d: int)
    requires 0 < c && 0 < d
    ensures 0 < c * d
    ensures HalfEven(c * n, c * d) == HalfEven(n, d)
  {
    var q := HalfEven(n, d);
    ScaledIsHalfEven(c, n, d, q);
    hide HalfEven, IsHalfEven;
    HalfEvenUnique(c * n, c * d, HalfEven(c * n, c * d), q);
  }

  lemma Stretch(c: int, x: int, y: int)
    requires 0 < c && x <= y
    ensures c * x <= c * y
  {
  }

  lemma Cancel(c: int, x: int, y: int)
    requires 0 < c && c * x == c * y
    ensures x == y
  {
  }

  /** The cash value of a fill. */
  function Notional(price: Px, qty: nat): (cents: Money)
    ensures 0 <= cents && IsHalfEven(price * qty, 100, cents)
  {
    HalfEven(price * qty, 100)
  }

  /** A buffer ratio below one as the decimal fraction num/scale ("0.025" is 25/1000). */
  datatype Ratio = Ratio(num: nat, scale: nat)
  {
    ghost predicate Valid() { num < scale }
  }

  /** What a market BUY holds: price * qty * (1 + ratio). */
  function ReserveWithBuffer(price: Px, qty: nat, ratio: Ratio): (cents: Money)
    requires ratio.Valid()
    ensures 0 <= cents && IsHalfEven(BufferedUnits(price, qty, ratio), 100 * ratio.scale, cents)
  {
    var units, d := BufferedUnits(price, qty, ratio), 100 * ratio.scale;
    NearestNonNegative(units, d, HalfEven(units, d));
    HalfEven(units, d)
  }

  /** price * qty * (1 + ratio), in ten-thousandths of a dollar times ratio.scale. */
  function BufferedUnits(price: Px, qty: nat, ratio: Ratio): (units: nat)
    ensures price * qty * ratio.scale <= units
  {
    var exact := price * qty;
    assert exact * (ratio.scale + ratio.num) == exact * ratio.scale + exact * ratio.num;
    exact * (ratio.scale + ratio.num)
  }

  /** A market BUY never reserves less than its order would cost at the reference price. */
  lemma BufferCoversNotional(price: Px, qty: nat, ratio: Ratio)
    requires ratio.Valid()
    ensures Notional(price, qty) <= ReserveWithBuffer(price, qty, ratio)
  {
    HalfEvenScale(ratio.scale, price * qty, 100);
    HalfEvenMonotone(ratio.scale * (price * qty), BufferedUnits(price, qty, ratio), 100 * ratio.scale);
  }

  /**
   * A reservation scaled from `before` open shares to `after`. The source divides first, at 40
   * digits, so an exact tie may fall either way; `tieUp` says which.
   */
  function ScaledReservation(reserved: Money, before: nat, after: nat, tieUp: bool): (cents: Money)
    requires 0 < before
    ensures (0 - before) <= 2 * (cents * before - reserved * after) <= before
  {
    var exact := reserved * after;
    var q, rest := exact / before, exact % before;
    assert exact == q * before + rest;
    if 2 * rest > before || (2 * rest == before && tieUp) then
      assert (q + 1) * before == q * before + before; q + 1
    else q
  }

  lemma ScaledKeepsSign(reserved: Money, before: nat, after: nat, tieUp: bool)
    requires 0 < before && 0 <= reserved
    ensures 0 <= ScaledReservation(reserved, before, after, tieUp)
  {
  }

  /** Nothing filled: the reservation comes out unchanged. */
  lemma ScaledBySame(reserved: Money, open: nat, tieUp: bool)
    requires 0 < open
    ensures ScaledReservation(reserved, open, open, tieUp) == reserved
  {
  }

  datatype Allocation = Allocation(share: Money, remaining: nat)

  /** Basis.allocate: None where the source throws. */
  function Allocate(basis: nat, sold: nat, total: nat): (r: Option<Allocation>)
    ensures r.Some? ==> 0 < sold <= total
    ensures r.Some? && sold < total ==> r.value.remaining == basis - 100 * r.value.share
    ensures r.Some? && sold == total ==> r.value.remaining == 0
  {
    if total == 0 || sold == 0 || total < sold then None
    else if sold == total then Some(Allocation(HalfEven(basis, 100), 0))
    else
      var share := HalfEven(basis * sold, 100 * total);
      if basis < 100 * share then None else Some(Allocation(share, basis - 100 * share))
  }

  /**
   * On a basis of whole cents the negative-remainder guard never fires, what is allocated plus
   * what remains is what was there, and the share allocated is within half a cent of pro rata.
   */
  lemma AllocateWholeCents(cents: nat, sold: nat, total: nat)
    requires 0 < sold <= total
    ensures var r := Allocate(100 * cents, sold, total);
      && r.Some?
      && 0 <= r.value.share <= cents
      && r.value.remaining == 100 * (cents - r.value.share)
      && (0 - total) <= 2 * (r.value.share * total - cents * sold) <= total
  {
    if sold == total {
      assert 100 * cents == cents * 100;
      HalfEvenExact(cents, 100);
      assert cents * total == cents * sold;
    } else {
      assert 100 * cents * sold == 100 * (cents * sold);
      HalfEvenScale(100, cents * sold, total);
      assert 0 <= cents * sold <= cents * total;
      HalfEvenMonotone(cents * sold, cents * total, total);
      HalfEvenMonotone(0 * total, cents * sold, total);
      HalfEvenExact(cents, total);
      HalfEvenExact(0, total);
    }
  }

  /** Without whole cents the guard can fire: two ten-thousandths and a large partial sale. */
  lemma AllocateCanRefuseSubCents()
    ensures Allocate(99, 99, 100).None?
  {
  }

  lemma AverageVanishesIff(basis: nat, qty: nat)
    requires 0 < qty
    ensures HalfEven(basis, qty) <= 0 <==> 2 * basis <= qty
  {
    var average := HalfEven(basis, qty);
    NearestNonNegative(basis, qty, average);
    if 2 * basis <= qty { HalfEvenUnique(basis, qty, 0, average); }
  }

  /** Basis.avgPx of a held position: None where Px refuses an average that rounds to zero. */
  function AvgPx(basis: nat, qty: nat): (r: Option<Px>)
    requires 0 < qty
    ensures r.Some? ==> IsHalfEven(basis, qty, r.value)
    ensures r.None? <==> 2 * basis <= qty
  {
    AverageVanishesIff(basis, qty);
    if 0 < HalfEven(basis, qty) then Some(HalfEven(basis, qty)) else None
  }

  datatype PriceMove = PriceMove(cents: Money, basisPoints: int)

  /** Quote display: the move in cents and in hundredths of a percent of `from`. */
  function PriceDelta(from: Px, to: Px): (move: PriceMove)
    ensures IsHalfEven(to - from, 100, move.cents)
    ensures IsHalfEven((to - from) * 10000, from, move.basisPoints)
  {
    PriceMove(HalfEven(to - from, 100), HalfEven((to - from) * 10000, from))
  }
}

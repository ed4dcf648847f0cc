// x402 payments: converting a price to token base units.

module X402Amount {

  import opened Integers

  const MAX_U128: nat := 0xFFFF_FFFF_FFFF_FFFF_FFFF_FFFF_FFFF_FFFF

  function Pow10(d: nat): (p: nat)
    ensures p > 0
  {
    if d == 0 then 1 else 10 * Pow10(d - 1)
  }

  function SaturatingMul(x: nat, y: nat): nat {
    if x * y > MAX_U128 then MAX_U128 else x * y
  }

  function SaturatingAdd(x: nat, y: nat): nat {
    if x + y > MAX_U128 then MAX_U128 else x + y
  }

  /** u128::pow wraps when overflow checks are off; up to 38 decimals it does not overflow. */
  function PowU128(d: nat): nat {
    Pow10(d) % (MAX_U128 + 1)
  }

  /** The conversion of x402_start for any number of decimals; the payment plugin refuses more than 38. */
  function TokenAmount(price: int, decimals: nat): nat {
    if price <= 0 then 0 else SaturatingAdd(SaturatingMul(price, PowU128(decimals)), 99) / 100
  }

  /** `price` hundredths of a token in base units, rounded up. */
  function Ceiling(price: nat, decimals: nat): nat {
    (price * Pow10(decimals) + 99) / 100
  }

  /** The ceiling is the least amount that covers the price. */
  lemma CeilingIsLeast(price: nat, decimals: nat, amount: nat)
    ensures amount * 100 >= price * Pow10(decimals) <==> amount >= Ceiling(price, decimals)
  {
  }

  lemma {:induction false} PowGrows(d: nat, e: nat)
    requires d <= e
    ensures Pow10(d) <= Pow10(e)
    decreases e
  {
    if d < e { PowGrows(d, e - 1); }
  }

  lemma Pow10At38()
    ensures Pow10(19) == 10_000_000_000_000_000_000
    ensures Pow10(20) == 100_000_000_000_000_000_000
    ensures Pow10(38) == 100_000_000_000_000_000_000_000_000_000_000_000_000
  {
    assert Pow10(4) == 10_000;
    assert Pow10(8) == 100_000_000;
    assert Pow10(12) == 1_000_000_000_000;
    assert Pow10(16) == 10_000_000_000_000_000;
    assert Pow10(19) == 10_000_000_000_000_000_000;
    assert Pow10(23) == 100_000_000_000_000_000_000_000;
    assert Pow10(27) == 1_000_000_000_000_000_000_000_000_000;
    assert Pow10(31) == 10_000_000_000_000_000_000_000_000_000_000;
    assert Pow10(35) == 100_000_000_000_000_000_000_000_000_000_000_000;
  }

  lemma PowFits(d: nat)
    requires d <= 38
    ensures PowU128(d) == Pow10(d)
  {
    Pow10At38();
    PowGrows(d, 38);
  }

  lemma Monotone(x: nat, p: nat, q: nat)
    requires p <= q
    ensures x * p <= x * q
  {
  }

  /** Whatever saturates or wraps, a buyer is never asked for more than the price, and for nothing when that is zero. */
  lemma NeverAboveCeiling(price: int, decimals: nat)
    ensures price > 0 ==> TokenAmount(price, decimals) <= Ceiling(price, decimals)
    ensures price <= 0 ==> TokenAmount(price, decimals) == 0
  {
    if price > 0 { Monotone(price, PowU128(decimals), Pow10(decimals)); }
  }

  /** Up to 38 decimals the amount is exact, and covers the price, if and only if saturation can still reach the
      exact one. */
  lemma ExactExactlyWhen(price: int, decimals: nat)
    requires price > 0 && decimals <= 38
    ensures TokenAmount(price, decimals) == Ceiling(price, decimals) <==> Ceiling(price, decimals) <= MAX_U128 / 100
    ensures TokenAmount(price, decimals) * 100 >= price * Pow10(decimals) <==>
            Ceiling(price, decimals) <= MAX_U128 / 100
    ensures price * Pow10(decimals) + 99 <= MAX_U128 ==> TokenAmount(price, decimals) == Ceiling(price, decimals)
  {
    PowFits(decimals);
    CeilingIsLeast(price, decimals, TokenAmount(price, decimals));
    NeverAboveCeiling(price, decimals);
  }

  /** Every 64-bit price is converted exactly up to 19 decimals; with 20 the largest prices are not. */
  lemma ExactUpTo19(price: int, decimals: nat)
    requires 0 < price <= MAX_I64 && decimals <= 19
    ensures TokenAmount(price, decimals) == Ceiling(price, decimals)
    ensures TokenAmount(MAX_I64, 20) < Ceiling(MAX_I64, 20)
  {
    Pow10At38();
    PowGrows(decimals, 19);
    Monotone(price, Pow10(decimals), Pow10(19));
    ExactExactlyWhen(price, decimals);
    PowFits(20);
  }
}

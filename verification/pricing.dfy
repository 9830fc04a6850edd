/** Conversion of a paid amount into credits. Paystack reports amounts in
    the currency's minor unit (kobo, 1/100 of a shilling); one credit costs
    150 shillings. */
module Pricing {
  import opened Wrappers
  import Js

  /** `CALEVID_CREDIT_PRICE` / `CREDIT_PRICE_KES`: shillings per credit. */
  const CreditPriceKes: int := 150

  /** Minor units per shilling. */
  const KoboPerKes: int := 100

  const KoboPerCredit: int := KoboPerKes * CreditPriceKes

  /** The floor of an exact quotient is Dafny's (floor) integer division. */
  lemma FloorOfQuotient(a: int, d: int)
    requires d > 0
    ensures ((a as real) / (d as real)).Floor == a / d
  {
    var q, r := a / d, a % d;
    assert a == q * d + r && 0 <= r < d;
    var x := (a as real) / (d as real);
    assert x == q as real + (r as real) / (d as real);
    assert 0.0 <= (r as real) / (d as real) < 1.0;
  }

  /** `floor(amount / 100 / 150)`: the credits bought by `amountKobo`. The
      source divides in floating point; here the division is exact, and the
      result is the integer quotient by 15000. */
  function Credits(amountKobo: int): (c: int)
    ensures c == ((amountKobo as real) / (KoboPerKes as real) / (CreditPriceKes as real)).Floor
    ensures c * KoboPerCredit <= amountKobo < (c + 1) * KoboPerCredit
  {
    assert (amountKobo as real) / (KoboPerKes as real) / (CreditPriceKes as real)
        == (amountKobo as real) / (KoboPerCredit as real);
    FloorOfQuotient(amountKobo, KoboPerCredit);
    amountKobo / KoboPerCredit
  }

  /** A payment earns at least one credit exactly when it covers one credit's price. */
  lemma CreditsPositiveIff(amountKobo: int)
    ensures Credits(amountKobo) > 0 <==> amountKobo >= KoboPerCredit
  {
  }

  /** What the checkout charges for `qty` credits: `qty * creditPrice`
      shillings, passed to Paystack multiplied by 100. */
  function ChargeKobo(qty: nat): (amount: int)
    ensures amount >= 0
  {
    qty * CreditPriceKes * KoboPerKes
  }

  /** Buying `qty` credits charges an amount that converts back to exactly `qty` credits. */
  lemma ChargeConvertsBack(qty: nat)
    ensures Credits(ChargeKobo(qty)) == qty
  {
    assert ChargeKobo(qty) == qty * KoboPerCredit;
  }

  /** `Math.floor(amount / 100 / 150)` in JavaScript, where a missing or
      non-numeric `amount` makes the quotient NaN. */
  function JsCredits(amount: Option<int>): (n: Js.Number)
    ensures n.NaN? <==> amount.None?
    ensures n.Finite? ==> n.value * KoboPerCredit <= amount.value < (n.value + 1) * KoboPerCredit
    // the test `credits <= 0` lets through exactly a missing amount or one buying a credit
    ensures !Js.AtMostZero(n) <==> amount.None? || amount.value >= KoboPerCredit
  {
    match amount
    case None => Js.NaN
    case Some(a) => Js.Finite(Credits(a))
  }
}

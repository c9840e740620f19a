/** Decimal amounts, their precision, and the scaling to a token's smallest unit. */
module Decimals {
  import opened Options

  /** A decimal: its exact value, and the base-ten exponent of the form it is written in
      (1.50 has exponent -2, although its value needs only one digit). Arithmetic and
      comparison look at the value only; the precision check looks at the exponent only. */
  datatype Decimal = Decimal(value: real, exponent: int)

  const ZERO := Decimal(0.0, 0)

  function Pow10(n: nat): (p: nat)
    ensures p >= 1
  {
    if n == 0 then 1 else 10 * Pow10(n - 1)
  }

  /** d is what a coefficient and an exponent can denote: coefficient * 10^exponent. */
  ghost predicate IsDecimal(d: Decimal) {
    exists coefficient: int :: Denotes(d, coefficient)
  }

  ghost predicate Denotes(d: Decimal, coefficient: int) {
    if d.exponent >= 0 then d.value == (coefficient * Pow10(d.exponent)) as real
    else d.value * Pow10(-d.exponent) as real == coefficient as real
  }

  /** At most maxDecimals digits after the decimal point are written. */
  predicate PrecisionValid(amount: Decimal, maxDecimals: nat) {
    amount.exponent + maxDecimals >= 0
  }

  /** A difference is written with the smaller of the two exponents. */
  function Minus(a: Decimal, b: Decimal): Decimal {
    Decimal(a.value - b.value, if a.exponent < b.exponent then a.exponent else b.exponent)
  }

  function Scaled(x: real, decimals: nat): real {
    x * Pow10(decimals) as real
  }

  predicate IsInteger(y: real) {
    y.Floor as real == y
  }

  /** Scaling by 10^decimals gives an integer. */
  predicate Fits(x: real, decimals: nat) {
    IsInteger(Scaled(x, decimals))
  }

  /** The amount in the token's smallest unit, or None if it has too many digits. */
  function ToBigInt(x: real, decimals: nat): (r: Option<int>)
    ensures r.Some? <==> Fits(x, decimals)
    ensures r.Some? ==> r.value as real == Scaled(x, decimals)
  {
    var scaled := Scaled(x, decimals);
    if IsInteger(scaled) then Some(scaled.Floor) else None
  }

  lemma FitsFromInteger(x: real, decimals: nat, n: int)
    requires Scaled(x, decimals) == n as real
    ensures Fits(x, decimals)
  {
    assert (n as real).Floor == n;
  }

  lemma IntegerOf(x: real, decimals: nat) returns (n: int)
    requires Fits(x, decimals)
    ensures Scaled(x, decimals) == n as real
  {
    n := Scaled(x, decimals).Floor;
  }

  lemma {:induction false} Pow10Adds(m: nat, n: nat)
    ensures Pow10(m + n) == Pow10(m) * Pow10(n)
  {
    if m > 0 {
      Pow10Adds(m - 1, n);
      assert m + n - 1 == (m - 1) + n;
      assert Pow10(m + n) == 10 * (Pow10(m - 1) * Pow10(n));
      assert 10 * (Pow10(m - 1) * Pow10(n)) == (10 * Pow10(m - 1)) * Pow10(n);
    }
  }

  lemma Rescale(x: real, p: int, q: int, n: int)
    requires x * p as real == n as real
    ensures x * (p * q) as real == (n * q) as real
  {
    RealProduct(p, q);
    RealProduct(n, q);
    Regroup(x, p as real, q as real);
  }

  lemma RealProduct(a: int, b: int)
    ensures (a * b) as real == a as real * b as real
  {}

  lemma Regroup(x: real, a: real, b: real)
    ensures x * (a * b) == (x * a) * b
  {}

  /** The precision check is sound: an amount that passes it scales to an integer. */
  lemma PrecisionSound(d: Decimal, maxDecimals: nat)
    requires IsDecimal(d) && PrecisionValid(d, maxDecimals)
    ensures Fits(d.value, maxDecimals)
  {
    var c: int :| Denotes(d, c);
    if d.exponent >= 0 {
      WholeFits(d.value, maxDecimals, c * Pow10(d.exponent));
    } else {
      var e: nat := -d.exponent;
      assert d.value * Pow10(e) as real == c as real;
      WrittenFits(d.value, e, c, maxDecimals);
    }
  }

  lemma WholeFits(x: real, decimals: nat, n: int)
    requires x == n as real
    ensures Fits(x, decimals)
  {
    RealProduct(n, Pow10(decimals));
    FitsFromInteger(x, decimals, n * Pow10(decimals));
  }

  lemma WrittenFits(x: real, e: nat, n: int, decimals: nat)
    requires e <= decimals && Scaled(x, e) == n as real
    ensures Fits(x, decimals)
  {
    var rest := Pow10(decimals - e);
    Pow10Adds(e, decimals - e);
    Rescale(x, Pow10(e), rest, n);
    FitsFromInteger(x, decimals, n * rest);
  }

  /** Whatever scales to an integer at some precision does so at any finer one. */
  lemma FitsFiner(x: real, decimals: nat, finer: nat)
    requires Fits(x, decimals) && decimals <= finer
    ensures Fits(x, finer)
  {
    var n := IntegerOf(x, decimals);
    WrittenFits(x, decimals, n, finer);
  }

  lemma Distribute(x: real, y: real, p: real)
    ensures (x + y) * p == x * p + y * p
    ensures (x - y) * p == x * p - y * p
  {}

  /** Amounts of a given precision are closed under addition and subtraction. */
  lemma FitsCloses(x: real, y: real, decimals: nat)
    requires Fits(x, decimals) && Fits(y, decimals)
    ensures Fits(x + y, decimals) && Fits(x - y, decimals)
  {
    var m := IntegerOf(x, decimals);
    var n := IntegerOf(y, decimals);
    Distribute(x, y, Pow10(decimals) as real);
    FitsFromInteger(x + y, decimals, m + n);
    FitsFromInteger(x - y, decimals, m - n);
  }

  lemma FitsZero(decimals: nat)
    ensures Fits(0.0, decimals)
  {
    FitsFromInteger(0.0, decimals, 0);
  }
}

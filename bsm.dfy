/**
 The structure of the BSM helpers with the numerics left abstract: the normal
 CDF, d1 (which needs log and a division), the square root and brentq are
 parameters. The risk-free rate is the constant 0, so every discount factor
 exp(-rT) is 1.
 */
module Bsm {
  import opened Wrappers

  datatype OptionType = Call | Put

  /** The floating-point primitives, uninterpreted. `brentq(f, a, b, xtol)` is a root of f in [a, b] when it returns. */
  datatype Numerics = Numerics(
    cdf: real -> real,
    d1: (real, real, real, real) -> real,   // (S, K, T, sigma), r = 0
    sqrt: real -> real,
    brentq: (real -> real, real, real, real) -> real)

  /** The bracket and tolerance implied_volatility hands to brentq. */
  const Lower: real := 0.000001
  const Upper: real := 1.0
  const Tolerance: real := 0.000001

  /** BSM.price with r = 0: d2 = d1 - sigma sqrt(T). */
  function Price(num: Numerics, s: real, k: real, t: real, sigma: real, kind: OptionType): real
  {
    var d1 := num.d1(s, k, t, sigma);
    var d2 := d1 - sigma * num.sqrt(t);
    match kind
    case Call => s * num.cdf(d1) - k * num.cdf(d2)
    case Put => k * num.cdf(-d2) - s * num.cdf(-d1)
  }

  /** BSM.delta with r = 0. */
  function Delta(num: Numerics, s: real, k: real, t: real, sigma: real, kind: OptionType): real
  {
    var d1 := num.d1(s, k, t, sigma);
    match kind
    case Call => num.cdf(d1)
    case Put => num.cdf(d1) - 1.0
  }

  /** The function whose root in sigma is the implied volatility. */
  function Objective(num: Numerics, price: real, s: real, k: real, t: real, kind: OptionType): real -> real
  {
    sigma => Price(num, s, k, t, sigma, kind) - price
  }

  /**
   BSM.implied_volatility: brentq on [1e-6, 1] with xtol 1e-6; brentq raises
   ValueError when the objective has the same strict sign at both ends, and the
   caller turns that into NaN (None here).
   */
  function ImpliedVolatility(num: Numerics, price: real, s: real, k: real, t: real, kind: OptionType): Option<real>
  {
    var f := Objective(num, price, s, k, t, kind);
    if f(Lower) * f(Upper) > 0.0 then None else Some(num.brentq(f, Lower, Upper, Tolerance))
  }

  /** A failed bracket gives a missing volatility, never an error; otherwise the value is brentq's. */
  lemma ImpliedVolatilitySpec(num: Numerics, price: real, s: real, k: real, t: real, kind: OptionType)
    ensures var f := Objective(num, price, s, k, t, kind);
            && (ImpliedVolatility(num, price, s, k, t, kind).None? <==>
                  (f(Lower) > 0.0 && f(Upper) > 0.0) || (f(Lower) < 0.0 && f(Upper) < 0.0))
            && (ImpliedVolatility(num, price, s, k, t, kind).Some? ==>
                  ImpliedVolatility(num, price, s, k, t, kind).value == num.brentq(f, Lower, Upper, Tolerance))
  {
    var f := Objective(num, price, s, k, t, kind);
    SameSign(f(Lower), f(Upper));
  }

  lemma SameSign(a: real, b: real)
    ensures a * b > 0.0 <==> (a > 0.0 && b > 0.0) || (a < 0.0 && b < 0.0)
  {
    if a > 0.0 && b < 0.0 { assert a * b < 0.0 by { assert a * (-b) > 0.0; } }
    if a < 0.0 && b > 0.0 { assert a * b < 0.0 by { assert (-a) * b > 0.0; } }
    if a < 0.0 && b < 0.0 { assert a * b > 0.0 by { assert (-a) * (-b) > 0.0; } }
    if a > 0.0 && b > 0.0 { assert a * b > 0.0; }
  }

  /** When brentq returns a point of its bracket, the implied volatility lies in [1e-6, 1]. */
  lemma ImpliedVolatilityInBracket(num: Numerics, price: real, s: real, k: real, t: real, kind: OptionType)
    requires forall f, a, b, tol :: a <= b ==> a <= num.brentq(f, a, b, tol) <= b
    ensures ImpliedVolatility(num, price, s, k, t, kind).Some? ==>
              Lower <= ImpliedVolatility(num, price, s, k, t, kind).value <= Upper
  {
  }

  /** For identical inputs the put delta is the call delta minus one. */
  lemma PutDeltaIsCallDeltaMinusOne(num: Numerics, s: real, k: real, t: real, sigma: real)
    ensures Delta(num, s, k, t, sigma, Put) == Delta(num, s, k, t, sigma, Call) - 1.0
  {
  }

  /** With a CDF valued in [0, 1], call deltas lie in [0, 1] and put deltas in [-1, 0]. */
  lemma DeltaBounds(num: Numerics, s: real, k: real, t: real, sigma: real)
    requires forall x :: 0.0 <= num.cdf(x) <= 1.0
    ensures 0.0 <= Delta(num, s, k, t, sigma, Call) <= 1.0
    ensures -1.0 <= Delta(num, s, k, t, sigma, Put) <= 0.0
  {
  }

  /** With a CDF symmetric about zero, call minus put is S - K (put-call parity at r = 0). */
  lemma PutCallParity(num: Numerics, s: real, k: real, t: real, sigma: real)
    requires forall x :: num.cdf(-x) == 1.0 - num.cdf(x)
    ensures Price(num, s, k, t, sigma, Call) - Price(num, s, k, t, sigma, Put) == s - k
  {
    var d1 := num.d1(s, k, t, sigma);
    var d2 := d1 - sigma * num.sqrt(t);
    assert num.cdf(-d1) == 1.0 - num.cdf(d1);
    assert num.cdf(-d2) == 1.0 - num.cdf(d2);
    calc {
      Price(num, s, k, t, sigma, Call) - Price(num, s, k, t, sigma, Put);
      (s * num.cdf(d1) - k * num.cdf(d2)) - (k * (1.0 - num.cdf(d2)) - s * (1.0 - num.cdf(d1)));
      { assert k * (1.0 - num.cdf(d2)) == k - k * num.cdf(d2);
        assert s * (1.0 - num.cdf(d1)) == s - s * num.cdf(d1); }
      s - k;
    }
  }
}

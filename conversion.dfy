/** The rate frozen into a cost paid from a fund: how many units of the
    user's currency one unit of the fund's currency is worth, triangulated
    through the table's base currency. */
module Conversion {
  import opened Common

  /** `rates[c]` is truthy: present and not zero. */
  predicate HasRate(rates: map<Currency, real>, c: Currency) {
    c in rates && rates[c] != 0.0
  }

  /** The rate chosen by the POST `/cost` handler, branch by branch:
      same currency, fund in base (missing user rate falls back to 1),
      user in base, and the general case through the base. */
  function CostRate(fundCur: Currency, userCur: Currency, base: Currency,
                    rates: map<Currency, real>): (r: Result<real>)
    ensures r.Success? ==> r.value != 0.0
    ensures r.Failure? ==> r.error == RateNotFound(fundCur) || r.error == UserRateNotFound(userCur)
  {
    if fundCur == userCur then Success(1.0)
    else if fundCur == base then
      Success(if HasRate(rates, userCur) then rates[userCur] else 1.0)
    else if userCur == base then
      if !HasRate(rates, fundCur) then Failure(RateNotFound(fundCur))
      else Success(1.0 / rates[fundCur])
    else if !HasRate(rates, fundCur) then Failure(RateNotFound(fundCur))
    else if !HasRate(rates, userCur) then Failure(UserRateNotFound(userCur))
    else Success(rates[userCur] / rates[fundCur])
  }

  /** A currency the table can price: the base itself, or one with a rate. */
  predicate Quoted(rates: map<Currency, real>, base: Currency, c: Currency) {
    c == base || HasRate(rates, c)
  }

  /** Units of `c` per unit of the base, the base's own rate being 1. */
  function PerBase(rates: map<Currency, real>, base: Currency, c: Currency): (q: real)
    requires Quoted(rates, base, c)
    ensures q != 0.0
  {
    if c == base then 1.0 else rates[c]
  }

  /** The reference conversion factor through the base: units of `to`
      per unit of `from`. */
  function Factor(from: Currency, to: Currency, base: Currency, rates: map<Currency, real>): (f: real)
    requires Quoted(rates, base, from) && Quoted(rates, base, to)
    ensures f != 0.0
  {
    PerBase(rates, base, to) / PerBase(rates, base, from)
  }

  /** Exactly when the chosen rate is an error: the currencies differ, the
      fund is not in the base currency, and one side has no rate. */
  lemma CostRateFails(fundCur: Currency, userCur: Currency, base: Currency, rates: map<Currency, real>)
    ensures CostRate(fundCur, userCur, base, rates).Failure? <==>
              fundCur != userCur && fundCur != base &&
              (!Quoted(rates, base, fundCur) || !Quoted(rates, base, userCur))
    ensures CostRate(fundCur, userCur, base, rates).Failure? ==>
              CostRate(fundCur, userCur, base, rates).error ==
                (if !HasRate(rates, fundCur) then RateNotFound(fundCur) else UserRateNotFound(userCur))
  {
  }

  /** Whenever both currencies are priced, the chosen rate is the reference
      factor. */
  lemma {:induction false} CostRateIsFactor(fundCur: Currency, userCur: Currency, base: Currency,
                                            rates: map<Currency, real>)
    requires Quoted(rates, base, fundCur) && Quoted(rates, base, userCur)
    ensures CostRate(fundCur, userCur, base, rates) == Success(Factor(fundCur, userCur, base, rates))
  {
    var q := PerBase(rates, base, fundCur);
    if fundCur == userCur {
      assert q / q == 1.0;
    }
  }

  /** The one departure from the reference: a fund in the base currency and
      a user currency without a rate give 1 instead of an error. */
  lemma CostRateBaseFallback(fundCur: Currency, userCur: Currency, rates: map<Currency, real>)
    requires fundCur != userCur && !HasRate(rates, userCur)
    ensures CostRate(fundCur, userCur, fundCur, rates) == Success(1.0)
  {
  }

  /** The same currency always gives 1, whatever the table holds. */
  lemma CostRateSameCurrency(c: Currency, base: Currency, rates: map<Currency, real>)
    ensures CostRate(c, c, base, rates) == Success(1.0)
  {
  }

  /** Converting there and back is the identity for priced currencies. */
  lemma {:induction false} CostRateRoundTrip(a: Currency, b: Currency, base: Currency, rates: map<Currency, real>)
    requires Quoted(rates, base, a) && Quoted(rates, base, b)
    ensures CostRate(a, b, base, rates).Success? && CostRate(b, a, base, rates).Success?
    ensures CostRate(a, b, base, rates).value * CostRate(b, a, base, rates).value == 1.0
  {
    CostRateIsFactor(a, b, base, rates);
    CostRateIsFactor(b, a, base, rates);
    var qa, qb := PerBase(rates, base, a), PerBase(rates, base, b);
    assert (qb / qa) * (qa / qb) == 1.0;
  }

  /** Triangulation: converting through the base in two steps gives the
      direct rate. */
  lemma {:induction false} CostRateTriangulates(a: Currency, b: Currency, base: Currency,
                                                rates: map<Currency, real>)
    requires Quoted(rates, base, a) && Quoted(rates, base, b)
    ensures CostRate(a, base, base, rates).Success? && CostRate(base, b, base, rates).Success?
    ensures CostRate(a, b, base, rates).Success?
    ensures CostRate(a, b, base, rates).value ==
              CostRate(a, base, base, rates).value * CostRate(base, b, base, rates).value
  {
    var qa, qb := PerBase(rates, base, a), PerBase(rates, base, b);
    assert CostRate(a, b, base, rates) == Success(qb / qa) by {
      CostRateIsFactor(a, b, base, rates);
    }
    assert CostRate(a, base, base, rates) == Success(1.0 / qa) by {
      CostRateIsFactor(a, base, base, rates);
    }
    assert CostRate(base, b, base, rates) == Success(qb) by {
      CostRateIsFactor(base, b, base, rates);
    }
    assert qb / qa == (1.0 / qa) * qb;
  }

  /** With pivot USD and rates THB 35, EUR 0.9, a THB fund paying for a
      EUR user is frozen at 0.9/35, so 3500 THB are worth 90 EUR. */
  lemma ThbToEurExample()
    ensures CostRate("THB", "EUR", "USD", map["THB" := 35.0, "EUR" := 0.9]) == Success(0.9 / 35.0)
    ensures 3500.0 * CostRate("THB", "EUR", "USD", map["THB" := 35.0, "EUR" := 0.9]).value == 90.0
  {
  }
}

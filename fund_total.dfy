/** A user's total across funds: every fund converted to the table's base
    currency, the sum converted to the user's currency, rounded to cents;
    and the two fund routes that answer it. */
module FundTotal {
  import opened Common
  import opened Rates
  import opened RateService
  import opened Conversion
  import opened Ledger

  datatype Total = Total(total: real, baseCurrency: Currency, fundsCount: nat)

  /** One fund in base units: the balance itself when the fund is in the
      base, the balance divided by its rate when it has one, otherwise
      nothing (the fund is skipped). */
  function Contribution(f: Fund, base: Currency, rates: map<Currency, real>): (c: real)
    ensures !Quoted(rates, base, f.currency) ==> c == 0.0
    ensures Quoted(rates, base, f.currency) ==> c == f.currentBalance / PerBase(rates, base, f.currency)
  {
    if f.currency == base then f.currentBalance
    else if HasRate(rates, f.currency) then f.currentBalance / rates[f.currency]
    else 0.0
  }

  /** `totalInSystemBase` after the loop over `funds`. */
  function PivotSum(funds: seq<Fund>, base: Currency, rates: map<Currency, real>): real {
    if funds == [] then 0.0
    else PivotSum(funds[..|funds| - 1], base, rates) + Contribution(funds[|funds| - 1], base, rates)
  }

  /** The second hop: to the user's currency when it is the base or has a
      rate; otherwise the base sum is returned unconverted. */
  function ToUserCurrency(sum: real, userCur: Currency, base: Currency, rates: map<Currency, real>): (t: real)
    ensures userCur == base || !HasRate(rates, userCur) ==> t == sum
    ensures userCur != base && HasRate(rates, userCur) ==> t == sum * rates[userCur]
  {
    if userCur != base && HasRate(rates, userCur) then sum * rates[userCur] else sum
  }

  /** What `calculateTotalFundsAmount` answers for the user's funds. */
  function TotalSpec(funds: seq<Fund>, userCur: Currency, table: Option<RateDoc>): (r: Option<Total>)
    ensures |funds| == 0 ==> r == Some(Total(0.0, userCur, 0))
    ensures r.None? <==> |funds| > 0 && table.None?
    ensures r.Some? ==> r.value.baseCurrency == userCur && r.value.fundsCount == |funds|
  {
    if |funds| == 0 then Some(Total(0.0, userCur, 0))
    else if table.None? then None
    else
      var rates := RatesObject(table.value.rates);
      Some(Total(RoundCents(ToUserCurrency(PivotSum(funds, table.value.base, rates),
                                           userCur, table.value.base, rates)),
                 userCur, |funds|))
  }

  /** `calculateTotalFundsAmount`, given the user's funds as the store
      lists them. The rate table is read only when there are funds. */
  method CalculateTotal(funds: seq<Fund>, userCurrency: Currency, store: RateStore) returns (r: Option<Total>)
    ensures r == TotalSpec(funds, userCurrency, store.doc)
    ensures |funds| == 0 ==> r == Some(Total(0.0, userCurrency, 0))
    ensures r.None? <==> |funds| > 0 && store.doc.None?
    ensures r.Some? ==> r.value.baseCurrency == userCurrency && r.value.fundsCount == |funds|
  {
    if |funds| == 0 {
      return Some(Total(0.0, userCurrency, 0));
    }
    var exchangeRates := store.GetRates();
    if exchangeRates.None? {
      return None;
    }
    var rates := ToRatesObject(exchangeRates.value.rates);
    var systemBaseCurrency := exchangeRates.value.base;
    var totalInSystemBase := 0.0;
    for i := 0 to |funds|
      invariant totalInSystemBase == PivotSum(funds[..i], systemBaseCurrency, rates)
    {
      assert funds[..i + 1][..i] == funds[..i];
      var fund := funds[i];
      if fund.currency == systemBaseCurrency {
        totalInSystemBase := totalInSystemBase + fund.currentBalance;
      } else {
        if !HasRate(rates, fund.currency) {
          continue;
        }
        var convertedBalance := fund.currentBalance / rates[fund.currency];
        totalInSystemBase := totalInSystemBase + convertedBalance;
      }
    }
    assert funds[..|funds|] == funds;
    assert totalInSystemBase == PivotSum(funds, systemBaseCurrency, rates);
    var total := totalInSystemBase;
    if userCurrency != systemBaseCurrency {
      if HasRate(rates, userCurrency) {
        total := totalInSystemBase * rates[userCurrency];
      }
    }
    assert total == ToUserCurrency(PivotSum(funds, systemBaseCurrency, rates), userCurrency, systemBaseCurrency, rates);
    assert exchangeRates == store.doc;
    r := Some(Total(RoundCents(total), userCurrency, |funds|));
  }

  lemma {:induction false} PivotSumAppend(a: seq<Fund>, b: seq<Fund>, base: Currency, rates: map<Currency, real>)
    ensures PivotSum(a + b, base, rates) == PivotSum(a, base, rates) + PivotSum(b, base, rates)
    decreases |b|
  {
    if b == [] {
      assert a + b == a;
    } else {
      var init := b[..|b| - 1];
      assert (a + b)[..|a + b| - 1] == a + init;
      assert (a + b)[|a + b| - 1] == b[|b| - 1];
      PivotSumAppend(a, init, base, rates);
    }
  }

  /** Taking one fund out of the list takes its contribution out of the sum. */
  lemma PivotSumRemove(b: seq<Fund>, j: nat, base: Currency, rates: map<Currency, real>)
    requires j < |b|
    ensures PivotSum(b, base, rates) ==
              PivotSum(b[..j] + b[j + 1..], base, rates) + Contribution(b[j], base, rates)
  {
    assert b == (b[..j] + [b[j]]) + b[j + 1..];
    PivotSumAppend(b[..j] + [b[j]], b[j + 1..], base, rates);
    PivotSumAppend(b[..j], b[j + 1..], base, rates);
    assert (b[..j] + [b[j]])[..j] == b[..j];
  }

  /** Where the last fund of `a` sits in its permutation `b`, and what
      the rest of `b` is a permutation of. */
  lemma FindLast(a: seq<Fund>, b: seq<Fund>) returns (j: nat)
    requires a != [] && multiset(a) == multiset(b)
    ensures j < |b| && b[j] == a[|a| - 1]
    ensures multiset(a[..|a| - 1]) == multiset(b[..j] + b[j + 1..])
  {
    var init, last := a[..|a| - 1], a[|a| - 1];
    assert a == init + [last];
    assert multiset(init) == multiset(a) - multiset{last};
    assert last in multiset(b);
    j :| 0 <= j < |b| && b[j] == last;
    assert b == b[..j] + [b[j]] + b[j + 1..];
    assert multiset(b[..j] + b[j + 1..]) == multiset(b) - multiset{last};
  }

  /** The order in which the store lists the funds does not matter. */
  lemma {:induction false} PivotSumPermutation(a: seq<Fund>, b: seq<Fund>, base: Currency, rates: map<Currency, real>)
    requires multiset(a) == multiset(b)
    ensures PivotSum(a, base, rates) == PivotSum(b, base, rates)
    decreases |a|
  {
    if a != [] {
      var j := FindLast(a, b);
      PivotSumPermutation(a[..|a| - 1], b[..j] + b[j + 1..], base, rates);
      PivotSumRemove(b, j, base, rates);
    } else {
      assert |b| == |multiset(b)|;
    }
  }

  /** A fund without a usable rate adds nothing to the sum, yet it is still
      counted in `fundsCount`. */
  lemma SkippedFundStillCounted(funds: seq<Fund>, f: Fund, userCur: Currency, doc: RateDoc)
    requires f.currency != doc.base && !HasRate(RatesObject(doc.rates), f.currency)
    ensures PivotSum(funds + [f], doc.base, RatesObject(doc.rates)) == PivotSum(funds, doc.base, RatesObject(doc.rates))
    ensures TotalSpec(funds + [f], userCur, Some(doc)).value.fundsCount == |funds| + 1
  {
    assert (funds + [f])[..|funds|] == funds;
  }

  /** Funds all in the base currency contribute their balances unchanged. */
  lemma {:induction false} AllInBase(funds: seq<Fund>, base: Currency, rates: map<Currency, real>)
    requires forall i :: 0 <= i < |funds| ==> funds[i].currency == base
    ensures PivotSum(funds, base, rates) == BalanceSum(funds)
  {
    if funds != [] {
      AllInBase(funds[..|funds| - 1], base, rates);
    }
  }

  function BalanceSum(funds: seq<Fund>): real {
    if funds == [] then 0.0 else BalanceSum(funds[..|funds| - 1]) + funds[|funds| - 1].currentBalance
  }

  /** Every fund's currency is priced by the table. */
  predicate AllQuoted(funds: seq<Fund>, base: Currency, rates: map<Currency, real>) {
    forall f | f in funds :: Quoted(rates, base, f.currency)
  }

  /** The pure arithmetic behind the two hops: amounts `bs[i]` in
      currencies priced `qs[i]` per base unit. */
  function SumPerBase(bs: seq<real>, qs: seq<real>): real
    requires |bs| == |qs|
    requires forall i :: 0 <= i < |qs| ==> qs[i] != 0.0
  {
    if bs == [] then 0.0 else SumPerBase(bs[..|bs| - 1], qs[..|qs| - 1]) + bs[|bs| - 1] / qs[|qs| - 1]
  }

  function SumScaled(bs: seq<real>, qs: seq<real>, k: real): real
    requires |bs| == |qs|
    requires forall i :: 0 <= i < |qs| ==> qs[i] != 0.0
  {
    if bs == [] then 0.0 else SumScaled(bs[..|bs| - 1], qs[..|qs| - 1], k) + bs[|bs| - 1] * (k / qs[|qs| - 1])
  }

  /** Scaling the sum of the base amounts is summing each amount scaled. */
  lemma {:induction false} ScaleSumPerBase(bs: seq<real>, qs: seq<real>, k: real)
    requires |bs| == |qs|
    requires forall i :: 0 <= i < |qs| ==> qs[i] != 0.0
    ensures SumPerBase(bs, qs) * k == SumScaled(bs, qs, k)
  {
    if bs != [] {
      var n := |bs| - 1;
      ScaleSumPerBase(bs[..n], qs[..n], k);
      var p := SumPerBase(bs[..n], qs[..n]);
      assert (bs[n] / qs[n]) * k == bs[n] * (k / qs[n]);
      assert (p + bs[n] / qs[n]) * k == p * k + (bs[n] / qs[n]) * k;
    }
  }

  function Balances(funds: seq<Fund>): (bs: seq<real>)
    ensures |bs| == |funds|
  {
    seq(|funds|, i requires 0 <= i < |funds| => funds[i].currentBalance)
  }

  /** Units of each fund's currency per base unit. */
  function Quotes(funds: seq<Fund>, base: Currency, rates: map<Currency, real>): (qs: seq<real>)
    requires AllQuoted(funds, base, rates)
    ensures |qs| == |funds|
    ensures forall i :: 0 <= i < |qs| ==> qs[i] != 0.0
  {
    seq(|funds|, i requires 0 <= i < |funds| => assert funds[i] in funds; PerBase(rates, base, funds[i].currency))
  }

  lemma {:induction false} PivotSumPerBase(funds: seq<Fund>, base: Currency, rates: map<Currency, real>)
    requires AllQuoted(funds, base, rates)
    ensures PivotSum(funds, base, rates) == SumPerBase(Balances(funds), Quotes(funds, base, rates))
  {
    if funds != [] {
      FundsInit(funds, base, rates);
      PivotSumPerBase(funds[..|funds| - 1], base, rates);
    }
  }

  /** Dropping the last fund drops the last balance and the last quote. */
  lemma FundsInit(funds: seq<Fund>, base: Currency, rates: map<Currency, real>)
    requires funds != [] && AllQuoted(funds, base, rates)
    ensures AllQuoted(funds[..|funds| - 1], base, rates)
    ensures Balances(funds)[..|funds| - 1] == Balances(funds[..|funds| - 1])
    ensures Quotes(funds, base, rates)[..|funds| - 1] == Quotes(funds[..|funds| - 1], base, rates)
  {
    var init := funds[..|funds| - 1];
    assert forall i :: 0 <= i < |init| ==> init[i] == funds[i];
    assert forall f | f in init :: f in funds;
  }

  /** Every fund converted straight to the user's currency: the `i`-th
      term is the balance times `Factor(funds[i].currency, userCur, ..)`,
      the user's quote over the fund's quote. */
  function DirectSum(funds: seq<Fund>, userCur: Currency, base: Currency, rates: map<Currency, real>): real
    requires AllQuoted(funds, base, rates)
    requires Quoted(rates, base, userCur)
  {
    SumScaled(Balances(funds), Quotes(funds, base, rates), PerBase(rates, base, userCur))
  }

  /** When every fund currency and the user currency are priced, the two
      hops through the base equal converting each fund directly. */
  lemma TwoHopsAreDirect(funds: seq<Fund>, userCur: Currency, base: Currency,
                         rates: map<Currency, real>)
    requires AllQuoted(funds, base, rates)
    requires Quoted(rates, base, userCur)
    ensures ToUserCurrency(PivotSum(funds, base, rates), userCur, base, rates) == DirectSum(funds, userCur, base, rates)
  {
    ScaledPivot(funds, userCur, base, rates);
    ToUserOfScaled(PivotSum(funds, base, rates), DirectSum(funds, userCur, base, rates), userCur, base, rates);
  }

  /** The base sum times the user's quote is the direct sum. */
  lemma ScaledPivot(funds: seq<Fund>, userCur: Currency, base: Currency, rates: map<Currency, real>)
    requires AllQuoted(funds, base, rates)
    requires Quoted(rates, base, userCur)
    ensures PivotSum(funds, base, rates) * PerBase(rates, base, userCur) == DirectSum(funds, userCur, base, rates)
  {
    PivotSumPerBase(funds, base, rates);
    DirectSumScalesBase(funds, userCur, base, rates);
  }

  /** The direct sum is the sum of the base amounts times the user's quote. */
  lemma DirectSumScalesBase(funds: seq<Fund>, userCur: Currency, base: Currency, rates: map<Currency, real>)
    requires AllQuoted(funds, base, rates)
    requires Quoted(rates, base, userCur)
    ensures SumPerBase(Balances(funds), Quotes(funds, base, rates)) * PerBase(rates, base, userCur) ==
              DirectSum(funds, userCur, base, rates)
  {
    ScaleSumPerBase(Balances(funds), Quotes(funds, base, rates), PerBase(rates, base, userCur));
  }

  /** For a priced user currency the second hop multiplies by its quote;
      kept apart so that the step is proved without the facts about the
      fund list in scope. */
  lemma ToUserOfScaled(s: real, d: real, userCur: Currency, base: Currency, rates: map<Currency, real>)
    requires Quoted(rates, base, userCur)
    requires s * PerBase(rates, base, userCur) == d
    ensures ToUserCurrency(s, userCur, base, rates) == d
  {
  }

  /** The currency GET `/funds` aggregates in: the authenticated user's
      default, else the stored user's default, else 'USD'. */
  function ListCurrency(reqUser: Option<User>, dbUser: Option<User>): (c: Currency)
    ensures reqUser.Some? && reqUser.value.defaultCurrency != "" ==> c == reqUser.value.defaultCurrency
    ensures ((reqUser.None? || reqUser.value.defaultCurrency == "") && dbUser.Some? &&
             dbUser.value.defaultCurrency != "") ==> c == dbUser.value.defaultCurrency
    ensures ((reqUser.None? || reqUser.value.defaultCurrency == "") &&
             (dbUser.None? || dbUser.value.defaultCurrency == "")) ==> c == "USD"
  {
    if reqUser.Some? && reqUser.value.defaultCurrency != "" then reqUser.value.defaultCurrency
    else if dbUser.Some? && dbUser.value.defaultCurrency != "" then dbUser.value.defaultCurrency
    else "USD"
  }

  /** The `total` part of GET `/funds`: absent (null) exactly when there
      are funds but no rate table. */
  method ListFundsTotal(userFunds: seq<Fund>, reqUser: Option<User>, dbUser: Option<User>,
                        store: RateStore) returns (total: Option<Total>)
    ensures total == TotalSpec(userFunds, ListCurrency(reqUser, dbUser), store.doc)
    ensures total.None? <==> |userFunds| > 0 && store.doc.None?
  {
    var userCurrency := ListCurrency(reqUser, dbUser);
    total := CalculateTotal(userFunds, userCurrency, store);
  }

  /** GET `/funds/total`: not-found exactly when there are funds but no
      rate table; the currency is the authenticated user's default or 'USD'. */
  method FundsTotal(userFunds: seq<Fund>, authUser: User, store: RateStore) returns (r: Result<Total>)
    ensures r.Failure? <==> |userFunds| > 0 && store.doc.None?
    ensures r.Failure? ==> r.error == RatesNotFound
    ensures r.Success? ==> Some(r.value) == TotalSpec(userFunds, UserCurrency(authUser), store.doc)
  {
    var totalFunds := CalculateTotal(userFunds, UserCurrency(authUser), store);
    if totalFunds.None? {
      return Failure(RatesNotFound);
    }
    r := Success(totalFunds.value);
  }
}

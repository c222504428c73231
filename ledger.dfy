/** The fund ledger: the funds, the append-only list of fund transactions
    and the cost records, with the handlers that change them (create,
    manual update with its adjustment, delete with cascade, transfer, and
    paying a cost from a fund). Each handler is one atomic step. */
module Ledger {
  import opened Common
  import opened Rates
  import opened RateService
  import opened Conversion

  type FundId = nat
  type UserId = nat
  type CategoryId = nat

  datatype Fund = Fund(owner: Option<UserId>, name: string, currency: Currency,
                       initialBalance: real, currentBalance: real, isDefault: bool)

  datatype TxKind = Expense | Adjustment | TransferOut | TransferIn

  datatype Tx = Tx(user: Option<UserId>, fund: FundId, kind: TxKind, amount: real,
                   description: Option<string>)

  datatype User = User(defaultCurrency: string)

  /** A cost record; records written before currencies existed lack
      `currency` and `rate`. */
  datatype Cost = Cost(amount: real, currency: Option<Currency>, rate: Option<real>,
                       category: CategoryId, fund: Option<FundId>, comment: Option<string>,
                       date: int, user: UserId, createdAt: int)

  /** `user.defaultCurrency || 'USD'`. */
  function UserCurrency(u: User): (c: Currency)
    ensures u.defaultCurrency != "" ==> c == u.defaultCurrency
    ensures u.defaultCurrency == "" ==> c == "USD"
  {
    StrOr(Some(u.defaultCurrency), "USD")
  }

  /** The signed amounts of the transactions recorded against fund `id`. */
  function TxSum(txs: seq<Tx>, id: FundId): real {
    if txs == [] then 0.0
    else TxSum(txs[..|txs| - 1], id) + (if txs[|txs| - 1].fund == id then txs[|txs| - 1].amount else 0.0)
  }

  lemma TxSumAppend(txs: seq<Tx>, t: Tx, id: FundId)
    ensures TxSum(txs + [t], id) == TxSum(txs, id) + (if t.fund == id then t.amount else 0.0)
  {
    assert (txs + [t])[..|txs|] == txs;
  }

  lemma {:induction false} TxSumOfOthers(txs: seq<Tx>, id: FundId)
    requires forall i :: 0 <= i < |txs| ==> txs[i].fund != id
    ensures TxSum(txs, id) == 0.0
  {
    if txs != [] {
      TxSumOfOthers(txs[..|txs| - 1], id);
    }
  }

  /** `FundTransaction.deleteMany({fundId: id})`: the transactions of every
      other fund, in their original order. */
  function WithoutFund(txs: seq<Tx>, id: FundId): (r: seq<Tx>)
    ensures forall t :: t in r <==> t in txs && t.fund != id
    ensures forall t :: multiset(r)[t] == if t.fund == id then 0 else multiset(txs)[t]
    ensures |r| <= |txs|
  {
    if txs == [] then []
    else
      var last := txs[|txs| - 1];
      var rest := WithoutFund(txs[..|txs| - 1], id);
      assert multiset(txs) == multiset(txs[..|txs| - 1]) + multiset{last} by {
        assert txs == txs[..|txs| - 1] + [last];
      }
      if last.fund == id then rest else rest + [last]
  }

  /** The cascade keeps the surviving transactions in their original order:
      filtering a concatenation filters each part. */
  lemma {:induction false} WithoutFundAppend(a: seq<Tx>, b: seq<Tx>, id: FundId)
    ensures WithoutFund(a + b, id) == WithoutFund(a, id) + WithoutFund(b, id)
  {
    if b == [] {
      assert a + b == a;
    } else {
      var init, last := b[..|b| - 1], b[|b| - 1];
      assert b == init + [last];
      assert a + b == (a + init) + [last];
      var tail := if last.fund == id then [] else [last];
      calc {
        WithoutFund(a + b, id);
        { WithoutFundSnoc(a + init, last, id); }
        WithoutFund(a + init, id) + tail;
        { WithoutFundAppend(a, init, id); }
        WithoutFund(a, id) + WithoutFund(init, id) + tail;
        { WithoutFundSnoc(init, last, id); }
        WithoutFund(a, id) + WithoutFund(b, id);
      }
    }
  }

  lemma WithoutFundSnoc(s: seq<Tx>, t: Tx, id: FundId)
    ensures WithoutFund(s + [t], id) == WithoutFund(s, id) + (if t.fund == id then [] else [t])
  {
    assert (s + [t])[..|s|] == s;
  }

  /** Deleting one fund's transactions leaves every other fund's sum alone. */
  lemma {:induction false} TxSumWithoutFund(txs: seq<Tx>, gone: FundId, id: FundId)
    requires id != gone
    ensures TxSum(WithoutFund(txs, gone), id) == TxSum(txs, id)
  {
    if txs != [] {
      var last := txs[|txs| - 1];
      TxSumWithoutFund(txs[..|txs| - 1], gone, id);
      if last.fund != gone {
        TxSumAppend(WithoutFund(txs[..|txs| - 1], gone), last, id);
      }
    }
  }

  /** The fund-side checks of POST `/cost`, in their order: the fund, its
      balance (before any rate is looked up), the user, the rate table and
      finally the rate choice. A success is the rate frozen into the cost. */
  function FundPostRate(fund: Option<Fund>, amount: real, user: Option<User>,
                        table: Option<RateDoc>): (r: Result<real>)
    ensures r.Success? ==>
              fund.Some? && amount <= fund.value.currentBalance && user.Some? && table.Some? &&
              CostRate(fund.value.currency, UserCurrency(user.value), table.value.base,
                       RatesObject(table.value.rates)) == Success(r.value)
    ensures fund.None? ==> r == Failure(FundNotFound)
    ensures fund.Some? && fund.value.currentBalance < amount ==> r == Failure(InsufficientFunds)
    ensures fund.Some? && amount <= fund.value.currentBalance && user.None? ==> r == Failure(UserNotFound)
    ensures fund.Some? && amount <= fund.value.currentBalance && user.Some? && table.None? ==>
              r == Failure(RatesNotFound)
    ensures fund.Some? && amount <= fund.value.currentBalance && user.Some? && table.Some? ==>
              r == CostRate(fund.value.currency, UserCurrency(user.value), table.value.base,
                            RatesObject(table.value.rates))
  {
    if fund.None? then Failure(FundNotFound)
    else if fund.value.currentBalance < amount then Failure(InsufficientFunds)
    else if user.None? then Failure(UserNotFound)
    else if table.None? then Failure(RatesNotFound)
    else CostRate(fund.value.currency, UserCurrency(user.value), table.value.base,
                  RatesObject(table.value.rates))
  }

  /** The fund after `findByIdAndUpdate`: fields absent from the request
      keep their stored value. */
  function Patch(f: Fund, name: Option<string>, currentBalance: Option<real>,
                 isDefault: Option<bool>, currency: Option<Currency>): (g: Fund)
    ensures g.owner == f.owner && g.initialBalance == f.initialBalance
    ensures name.None? ==> g.name == f.name
    ensures name.Some? ==> g.name == name.value
    ensures currentBalance.None? ==> g.currentBalance == f.currentBalance
    ensures currentBalance.Some? ==> g.currentBalance == currentBalance.value
    ensures isDefault.None? ==> g.isDefault == f.isDefault
    ensures isDefault.Some? ==> g.isDefault == isDefault.value
    ensures currency.None? ==> g.currency == f.currency
    ensures currency.Some? ==> g.currency == currency.value
  {
    Fund(f.owner, name.GetOr(f.name), currency.GetOr(f.currency), f.initialBalance,
         currentBalance.GetOr(f.currentBalance), isDefault.GetOr(f.isDefault))
  }

  /** Every transaction belongs to a stored fund, and every balance is its
      initial balance plus the amounts recorded against it. */
  ghost predicate InStep(funds: map<FundId, Fund>, txs: seq<Tx>) {
    && (forall i :: 0 <= i < |txs| ==> txs[i].fund in funds)
    && (forall id :: id in funds ==> funds[id].currentBalance == funds[id].initialBalance + TxSum(txs, id))
  }

  /** Recording `t` against a stored fund and moving that fund's balance by
      `t.amount` keeps balances and transactions in step. */
  lemma Record(funds: map<FundId, Fund>, txs: seq<Tx>, t: Tx)
    requires InStep(funds, txs) && t.fund in funds
    ensures InStep(funds[t.fund := funds[t.fund].(currentBalance := funds[t.fund].currentBalance + t.amount)],
                   txs + [t])
  {
    forall k | k in funds ensures TxSum(txs + [t], k) == TxSum(txs, k) + (if t.fund == k then t.amount else 0.0) {
      TxSumAppend(txs, t, k);
    }
  }

  /** Both funds of a transfer exist and belong to the caller. */
  predicate BothOwned(funds: map<FundId, Fund>, caller: UserId, from: FundId, to: FundId) {
    from in funds && to in funds && funds[from].owner == Some(caller) && funds[to].owner == Some(caller)
  }

  /** The stored collections the fund and cost handlers touch. */
  class Store {
    var funds: map<FundId, Fund>
    var txs: seq<Tx>
    var costs: seq<Cost>
    var users: map<UserId, User>
    /** Ids are never reused: every stored fund has an id below this. */
    var nextId: FundId

    /** The replay invariant of the store: no fund id at or above the
        counter, and balances in step with the transaction list. */
    ghost predicate Valid()
      reads this
    {
      && (forall id :: id in funds ==> id < nextId)
      && InStep(funds, txs)
    }

    constructor (users: map<UserId, User>)
      ensures Valid()
      ensures funds == map[] && txs == [] && costs == [] && this.users == users
    {
      this.funds := map[];
      this.txs := [];
      this.costs := [];
      this.users := users;
      this.nextId := 0;
    }

    /** POST `/funds`: a new fund whose current balance is its initial
        balance; no transaction is written. */
    method CreateFund(name: string, owner: Option<UserId>, initialBalance: real,
                      isDefault: Option<bool>, currency: Currency) returns (id: FundId)
      requires Valid()
      modifies this
      ensures Valid()
      ensures id == old(nextId) && id !in old(funds) && nextId == old(nextId) + 1
      ensures funds == old(funds)[id := Fund(owner, name, currency, initialBalance, initialBalance,
                                             isDefault.GetOr(false))]
      ensures txs == old(txs) && costs == old(costs) && users == old(users)
    {
      id := nextId;
      assert forall i :: 0 <= i < |txs| ==> txs[i].fund != id;
      TxSumOfOthers(txs, id);
      funds := funds[id := Fund(owner, name, currency, initialBalance, initialBalance, isDefault.GetOr(false))];
      nextId := nextId + 1;
    }

    /** PUT `/funds/:id`: update the given fields and record one
        `adjustment` for the balance difference, even a zero one. */
    method UpdateFund(id: FundId, name: Option<string>, currentBalance: Option<real>,
                      isDefault: Option<bool>, currency: Option<Currency>) returns (r: Result<Fund>)
      requires Valid()
      modifies this
      ensures Valid()
      ensures id !in old(funds) ==> r == Failure(FundNotFound) && funds == old(funds) && txs == old(txs)
      ensures id in old(funds) ==>
                var before := old(funds)[id];
                r == Success(Patch(before, name, currentBalance, isDefault, currency)) &&
                funds == old(funds)[id := r.value] &&
                txs == old(txs) + [Tx(before.owner, id, Adjustment, r.value.currentBalance - before.currentBalance,
                                      Some("Manual adjustment"))]
      ensures costs == old(costs) && users == old(users) && nextId == old(nextId)
    {
      if id !in funds {
        return Failure(FundNotFound);
      }
      var oldFund := funds[id];
      var fund := Patch(oldFund, name, currentBalance, isDefault, currency);
      var adjustment := Tx(fund.owner, id, Adjustment, fund.currentBalance - oldFund.currentBalance,
                           Some("Manual adjustment"));
      forall k | k in funds ensures TxSum(txs + [adjustment], k) ==
                                   TxSum(txs, k) + (if k == id then adjustment.amount else 0.0) {
        TxSumAppend(txs, adjustment, k);
      }
      funds := funds[id := fund];
      txs := txs + [adjustment];
      r := Success(fund);
    }

    /** DELETE `/funds/:id`: remove the fund and every transaction recorded
        against it; other funds and transactions are untouched. Cost
        records keep their reference to the removed fund. */
    method DeleteFund(id: FundId) returns (r: Result<Fund>)
      requires Valid()
      modifies this
      ensures Valid()
      ensures id !in old(funds) ==> r == Failure(FundNotFound) && funds == old(funds) && txs == old(txs)
      ensures id in old(funds) ==>
                r == Success(old(funds)[id]) && funds == old(funds) - {id} &&
                txs == WithoutFund(old(txs), id)
      ensures costs == old(costs) && users == old(users) && nextId == old(nextId)
    {
      if id !in funds {
        return Failure(FundNotFound);
      }
      var fund := funds[id];
      forall k | k in funds && k != id ensures TxSum(WithoutFund(txs, id), k) == TxSum(txs, k) {
        TxSumWithoutFund(txs, id, k);
      }
      var kept := WithoutFund(txs, id);
      assert forall i :: 0 <= i < |kept| ==> kept[i] in txs && kept[i].fund != id;
      funds := funds - {id};
      txs := kept;
      r := Success(fund);
    }

    /** POST `/funds/transfer`: move the raw amount (no currency conversion)
        between two different funds of the caller, writing a `transfer-out`
        and a `transfer-in` transaction. */
    method Transfer(caller: UserId, from: FundId, to: FundId, amount: real,
                    description: Option<string>) returns (r: Result<()>)
      requires Valid()
      modifies this
      ensures Valid()
      ensures from == to ==> r == Failure(SameFunds)
      ensures from != to && !BothOwned(old(funds), caller, from, to) ==> r == Failure(FundsNotAccessible)
      ensures (from != to && BothOwned(old(funds), caller, from, to) &&
               old(funds)[from].currentBalance < amount) ==> r == Failure(InsufficientFunds)
      ensures r.Failure? ==> funds == old(funds) && txs == old(txs)
      ensures r.Success? <==>
                from != to && BothOwned(old(funds), caller, from, to) &&
                amount <= old(funds)[from].currentBalance
      ensures r.Success? ==>
                funds == old(funds)[from := old(funds)[from].(currentBalance := old(funds)[from].currentBalance - amount)]
                                   [to := old(funds)[to].(currentBalance := old(funds)[to].currentBalance + amount)] &&
                txs == old(txs) + [Tx(Some(caller), from, TransferOut, -amount, description),
                                   Tx(Some(caller), to, TransferIn, amount, description)]
      ensures r.Success? ==>
                funds[from].currentBalance >= 0.0 &&
                funds[from].currentBalance + funds[to].currentBalance ==
                  old(funds)[from].currentBalance + old(funds)[to].currentBalance &&
                txs[|txs| - 2].amount + txs[|txs| - 1].amount == 0.0
      ensures costs == old(costs) && users == old(users) && nextId == old(nextId)
    {
      if from == to {
        return Failure(SameFunds);
      }
      if !BothOwned(funds, caller, from, to) {
        return Failure(FundsNotAccessible);
      }
      var fromFund, toFund := funds[from], funds[to];
      if fromFund.currentBalance < amount {
        return Failure(InsufficientFunds);
      }
      var outgoing := Tx(Some(caller), from, TransferOut, -amount, description);
      var incoming := Tx(Some(caller), to, TransferIn, amount, description);
      forall k | k in funds ensures TxSum(txs + [outgoing] + [incoming], k) ==
                                   TxSum(txs, k) + (if k == from then -amount else 0.0)
                                                 + (if k == to then amount else 0.0) {
        TxSumAppend(txs, outgoing, k);
        TxSumAppend(txs + [outgoing], incoming, k);
      }
      txs := txs + [outgoing] + [incoming];
      funds := funds[from := fromFund.(currentBalance := fromFund.currentBalance - amount)];
      funds := funds[to := toFund.(currentBalance := toFund.currentBalance + amount)];
      r := Success(());
    }

    /** POST `/cost`. With a fund: every check comes before any write; on
        success the fund is debited by exactly `amount`, one `expense`
        transaction and one cost carrying the fund's currency and the chosen
        rate are appended. Without a fund: only the cost is appended, with
        the request's currency and rate or their defaults. `now` stands for
        the store's creation timestamp. */
    method PostCost(userId: UserId, amount: real, category: CategoryId, comment: Option<string>,
                    date: int, fundId: Option<FundId>, reqCurrency: Option<Currency>,
                    reqRate: Option<real>, store: RateStore, now: int) returns (r: Result<Cost>)
      requires Valid()
      modifies this
      ensures Valid()
      ensures users == old(users) && nextId == old(nextId)
      ensures fundId.Some? ==>
                var check := FundPostRate(Lookup(old(funds), fundId.value), amount, Lookup(users, userId), store.doc);
                (check.Failure? ==>
                   r == Failure(check.error) && funds == old(funds) && txs == old(txs) && costs == old(costs)) &&
                (check.Success? ==>
                   var f := old(funds)[fundId.value];
                   r == Success(Cost(amount, Some(f.currency), Some(check.value), category, fundId,
                                     comment, date, userId, now)) &&
                   funds == old(funds)[fundId.value := f.(currentBalance := f.currentBalance - amount)] &&
                   funds[fundId.value].currentBalance >= 0.0 &&
                   txs == old(txs) + [Tx(Some(userId), fundId.value, Expense, -amount,
                                         Some(StrOr(comment, "Cost payment")))] &&
                   costs == old(costs) + [r.value])
      ensures fundId.None? ==> funds == old(funds) && txs == old(txs)
      ensures fundId.None? && userId !in users ==> r == Failure(UserNotFound) && costs == old(costs)
      ensures fundId.None? && userId in users ==>
                r == Success(Cost(amount,
                                  Some(StrOr(reqCurrency, StrOr(Some(users[userId].defaultCurrency), "USD"))),
                                  Some(NumOrOne(reqRate)), category, None, comment, date, userId, now)) &&
                costs == old(costs) + [r.value]
    {
      var currency: Currency;
      var rate: real;
      if fundId.Some? {
        var id := fundId.value;
        if id !in funds {
          return Failure(FundNotFound);
        }
        var fund := funds[id];
        if fund.currentBalance < amount {
          return Failure(InsufficientFunds);
        }
        currency := fund.currency;
        if userId !in users {
          return Failure(UserNotFound);
        }
        var userCurrency := UserCurrency(users[userId]);
        var exchangeRates := store.GetRates();
        if exchangeRates.None? {
          return Failure(RatesNotFound);
        }
        var rates := ToRatesObject(exchangeRates.value.rates);
        var chosen := CostRate(currency, userCurrency, exchangeRates.value.base, rates);
        if chosen.Failure? {
          return Failure(chosen.error);
        }
        rate := chosen.value;
        var expense := Tx(Some(userId), id, Expense, -amount, Some(StrOr(comment, "Cost payment")));
        Record(funds, txs, expense);
        funds := funds[id := fund.(currentBalance := fund.currentBalance - amount)];
        txs := txs + [expense];
      } else {
        if userId !in users {
          return Failure(UserNotFound);
        }
        currency := StrOr(reqCurrency, StrOr(Some(users[userId].defaultCurrency), "USD"));
        rate := NumOrOne(reqRate);
      }
      var cost := Cost(amount, Some(currency), Some(rate), category, fundId, comment, date, userId, now);
      costs := costs + [cost];
      r := Success(cost);
    }
  }

  /** Every successful handler keeps the replay invariant, so a balance can
      always be recomputed from the transaction list: here, the balance
      change of a fund equals the amounts appended for it. */
  lemma {:induction false} ReplayAfterAppend(before: seq<Tx>, added: seq<Tx>, id: FundId)
    ensures TxSum(before + added, id) == TxSum(before, id) + TxSum(added, id)
    decreases |added|
  {
    if added == [] {
      assert before + added == before;
    } else {
      var init, last := added[..|added| - 1], added[|added| - 1];
      assert before + added == (before + init) + [last];
      assert added == init + [last];
      ReplayAfterAppend(before, init, id);
      TxSumAppend(before + init, last, id);
      TxSumAppend(init, last, id);
    }
  }

  /** A transfer's two transactions cancel out in the list as a whole. */
  lemma {:induction false} TransferPairSumsToZero(caller: UserId, from: FundId, to: FundId,
                                                  amount: real, d: Option<string>)
    requires from != to
    ensures var pair := [Tx(Some(caller), from, TransferOut, -amount, d), Tx(Some(caller), to, TransferIn, amount, d)];
            TxSum(pair, from) == -amount && TxSum(pair, to) == amount &&
            forall k :: k != from && k != to ==> TxSum(pair, k) == 0.0
  {
    var out, inc := Tx(Some(caller), from, TransferOut, -amount, d), Tx(Some(caller), to, TransferIn, amount, d);
    assert [out, inc] == [] + [out] + [inc];
    forall k ensures TxSum([out, inc], k) == (if k == from then -amount else 0.0) + (if k == to then amount else 0.0) {
      TxSumAppend([], out, k);
      TxSumAppend([] + [out], inc, k);
    }
  }
}

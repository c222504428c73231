# Multi-currency money core of wanna-track-api, in Dafny

This project models the money logic of the wanna-track-api backend, a
personal finance tracker. Users hold money in funds, record costs, and get
totals in their own currency from a rate table that is refreshed from an
upstream quote service. The model covers five parts.

- **Rate table and refresh** (`Rates`, `RateService`, `ExchangeRatesRoute`).
  - The store holds one document `{base, rates}`, with the convention
    1 base = `rates[c]` units of `c`.
  - `updateRates` checks the upstream payload and turns quote keys such as
    `USDTHB` into `THB` by deleting the first occurrence of the base
    string. It then replaces the stored document wholesale.
  - The rates view copies the stored field, which may be a JavaScript `Map`
    or a plain object, and sets `base` to 1.
- **Cost-rate selection** (`Conversion`). The rate frozen into a cost paid
  from a fund follows the handler's four branches exactly. This includes the
  silent fallback to 1 when the fund is in the base currency. The model
  compares it with a reference triangulation factor through the base.
- **Fund ledger** (`Ledger`). This is a class holding funds, an append-only
  transaction list, cost records and users, with a replay invariant: every
  balance is its initial balance plus the amounts recorded against it. Its
  handlers are create, update with an `adjustment` transaction, delete with
  cascade, transfer, and posting a cost with or without a fund.
- **Fund total** (`FundTotal`). The loop of `calculateTotalFundsAmount` is
  proved against a specification function. Each fund is converted to the
  base (funds without a rate are skipped), the sum is converted to the
  user's currency (an unknown currency is tolerated), and the result is
  rounded to cents. The two fund routes that answer with this total are
  modelled too.
- **Cost listing** (`CostListing`). The GET `/costs` aggregation is modelled
  as pure functions over cost records already joined with their category.
  The stages are: a half-open `createdAt` filter, legacy defaults, rounding
  of each item, grouping by category, rounding of each total, and an
  ordering by total, largest first.

Amounts and rates are exact `real`s. Currencies are strings. Ids are natural
numbers. Both roundings are written out:
- JavaScript `Math.round` is `floor(x + 1/2)`.
- MongoDB `$round` is round-half-to-even.

### Behaviour worth knowing

- A fund in the base currency paying for a user whose currency has no rate
  is frozen at rate 1 instead of failing (`routes/cost.js:208`).
- No handler checks `amount > 0`.
  - A transfer with a negative amount moves money into the source fund. It
    can leave the destination below zero.
  - A cost with a negative amount credits its fund.
- The cost listing filters on `createdAt`, not on the cost's `date`.
- Items are rounded before they are summed. The `$round` of the integral
  group sum therefore never changes it (`Common.RoundHalfEvenOfInt`).
- The model does not assume that `rates` omits the base currency or holds
  only positive entries. A zero entry counts as
  missing, as JavaScript truthiness does. A base entry in the stored `rates`
  is overwritten by 1 in the view.
- A manual balance edit appends an adjustment equal to the difference. The
  replay invariant therefore survives every handler. `Ledger.Store.Valid`
  is required and ensured by each method.

## Model

| member | source | states |
|---|---|---|
| Common.Lookup | routes/cost.js:160 | `findById`: the stored document exactly when the id is stored, otherwise null |
| Common.StrOr | routes/cost.js:261 | `s \|\| d` yields `d` exactly when `s` is absent, empty or `d` itself, and otherwise yields `s` |
| Common.NumOrOne | routes/cost.js:262 | `x \|\| 1` is never 0: an absent or zero value becomes 1, any other value is kept |
| Common.MathRound | utils/fund.utils.js:84 | `Math.round(x)` is the integer `n` with `n - 1/2 <= x < n + 1/2` |
| Common.MathRoundUnique | utils/fund.utils.js:84 | that integer is unique, so the rounding is fully determined |
| Common.RoundHalfEven | routes/cost.js:79-86 | `$round(x, 0)` is within 1/2 of `x`, and an exact tie goes to the even neighbour |
| Common.RoundHalfEvenOfInt | routes/cost.js:114-119 | `$round` of an integral value changes nothing |
| Common.RoundCents | utils/fund.utils.js:84 | `Math.round(x*100)/100` is a whole number of cents, `x - 0.005 < r <= x + 0.005` |
| Rates.EntriesMap | routes/exchange-rates.js:16-20 | the plain object built from a `Map`'s entries, assigned in order so that a later entry for a key overwrites an earlier one |
| Rates.EntriesMapKeys | routes/exchange-rates.js:16-20 | the object copied from a `Map` has exactly the `Map`'s keys |
| Rates.EntriesMapSnoc | routes/exchange-rates.js:18-20 | one more `forEach` step sets exactly that key to that value |
| Rates.EntriesMapAt | routes/exchange-rates.js:18-20 | an entry that no later entry overrides gives the copied value of its key |
| Rates.RatesObject | routes/exchange-rates.js:16-24 | the plain object every reader builds from the stored field: the `Map`'s entries assigned in order, or the object itself |
| Rates.ToRatesObject | routes/exchange-rates.js:16-24 | the `forEach` loop or `Object.assign` yields the stored field as a plain object |
| Rates.ViewOf | routes/exchange-rates.js:16-27 | the view of a document has the stored keys plus the base, maps the base to 1, and keeps every other stored rate |
| Rates.BuildView | routes/exchange-rates.js:16-27 | the view has the stored keys plus the base, the base maps to 1, and every other key keeps its stored rate |
| Rates.ViewOfMapShape | routes/exchange-rates.js:16-27 | for a `Map`-shaped field the view's keys are the `Map`'s keys plus the base, and each non-base rate is the stored one |
| Rates.ShapesGiveSameView | routes/exchange-rates.js:17-24 | a `Map` and an object holding the same pairs give the same view |
| RateService.IndexFrom | services/exchangeRateService.js:51 | the first match at or after `k`, or none when no position at or after `k` matches |
| RateService.IndexOf | services/exchangeRateService.js:51 | `indexOf` finds the first occurrence, or none when there is none |
| RateService.StripFirst | services/exchangeRateService.js:51 | `replace(base, "")` deletes exactly the first occurrence, and leaves the key unchanged without one |
| RateService.StripFirstOfQuoteKey | services/exchangeRateService.js:50-51 | a key made of the base followed by a code yields that code (`USDTHB` to `THB`) |
| RateService.Stripped | services/exchangeRateService.js:49-52 | one stripped entry per quote, in order, with the quote value unchanged |
| RateService.MapSet | services/exchangeRateService.js:52 | `Map.set`: an existing key keeps its position and takes the new value, a new key is appended |
| RateService.MapSetKeys | services/exchangeRateService.js:52 | `Map.set` adds the key, and grows the map only for a new key |
| RateService.MapSetDistinct | services/exchangeRateService.js:52 | `Map.set` keeps the keys distinct |
| RateService.MapSetEntries | services/exchangeRateService.js:52 | on distinct keys, `Map.set` assigns exactly that key in the resulting object |
| RateService.ParseQuotes | services/exchangeRateService.js:48-53 | the parsed rates form a `Map` equal to the stripped quotes assigned in order, with no more entries than quotes |
| RateService.ParsedKeys | services/exchangeRateService.js:48-53 | a currency is parsed exactly when some quote key strips to it |
| RateService.ParsedLastWins | services/exchangeRateService.js:48-53 | when keys collide after stripping, the last quote's value is kept |
| RateService.CheckPayload | services/exchangeRateService.js:20-43 | succeeds exactly when there is a key, the response is ok, `success` is set and `source` and `quotes` are present; a missing key and a failed request give their own errors |
| RateService.RateStore.GetRates | services/exchangeRateService.js:3-16 | the single stored document, or none when nothing is stored |
| RateService.RateStore.UpdateRates | services/exchangeRateService.js:18-67 | a failure leaves the store as it was; a success replaces it wholesale by `{base: source, rates: parsed}` |
| ExchangeRatesRoute.Current | routes/exchange-rates.js:5-41 | not-found without a document, otherwise the view of the stored document, with the base at 1 |
| ExchangeRatesRoute.Update | routes/exchange-rates.js:44-74 | a refresh failure is passed on and stores nothing; a success stores `{base: source, rates: parsed}` and answers the view of that document |
| Conversion.HasRate | routes/cost.js:205-238 | the truthiness test on `rates[c]`: present and not zero |
| Conversion.CostRate | routes/cost.js:200-239 | the four-way rate choice; a chosen rate is never 0, and an error names either the fund's or the user's currency |
| Conversion.CostRateFails | routes/cost.js:202-239 | the rate choice fails exactly when the currencies differ, the fund is not in the base and one side has no rate; the error names the fund's currency first |
| Conversion.CostRateIsFactor | routes/cost.js:200-239 | whenever both currencies are priced, the chosen rate equals the reference factor `per-base(user) / per-base(fund)` |
| Conversion.CostRateBaseFallback | routes/cost.js:205-208 | a fund in the base and a user currency without a rate give rate 1 |
| Conversion.CostRateSameCurrency | routes/cost.js:202-204 | the same currency gives 1 whatever the table holds |
| Conversion.CostRateRoundTrip | routes/cost.js:209-238 | the rates there and back multiply to 1 |
| Conversion.CostRateTriangulates | routes/cost.js:220-238 | the general branch's rate is rate-to-base times rate-from-base |
| Conversion.ThbToEurExample | routes/cost.js:220-238 | pivot USD with THB 35 and EUR 0.9 gives 0.9/35, at which 3500 THB are 90 EUR |
| Ledger.UserCurrency | routes/cost.js:21 | the user's default currency, or 'USD' when it is empty |
| Ledger.WithoutFund | routes/fund.js:137 | `deleteMany({fundId})` keeps exactly the transactions of other funds, each as many times as it occurs |
| Ledger.WithoutFundAppend | routes/fund.js:137 | the surviving transactions keep their original order: filtering a concatenation filters each part |
| Ledger.TxSumWithoutFund | routes/fund.js:137 | the cascade leaves every other fund's transaction sum unchanged |
| Ledger.FundPostRate | routes/cost.js:159-239 | the checks in their order: fund, balance (before any rate lookup), user, table; once all four pass, the outcome of the rate choice, its rate or its own error |
| Ledger.Patch | routes/fund.js:100-104 | each of `name`, `currentBalance`, `isDefault` and `currency` is the requested value when given and the stored one otherwise; owner and initial balance never change |
| Ledger.Store.Valid | routes/fund.js:56-206 | the replay invariant: every transaction belongs to a stored fund, every balance is its initial balance plus the amounts recorded against it, and no fund id reaches the counter |
| Ledger.Store.CreateFund | routes/fund.js:56-90 | a new fund under the counter's id, which then moves past it with current balance equal to its initial balance; nothing else changes |
| Ledger.Store.UpdateFund | routes/fund.js:93-124 | a missing fund fails with no change; otherwise the fund is patched and exactly one `adjustment` of new minus old balance is appended, even when zero |
| Ledger.Store.DeleteFund | routes/fund.js:127-143 | a missing fund fails with no change; otherwise the fund and exactly its transactions are removed |
| Ledger.BothOwned | routes/fund.js:158-166 | the single `find` by both ids and the caller succeeds: both funds exist and belong to the caller |
| Ledger.Store.Transfer | routes/fund.js:146-206 | same fund, foreign or missing funds, or too small a source balance fail with no change; it succeeds exactly when none of these holds; a success moves the raw amount, conserves the pair's sum, leaves the source non-negative and appends two transactions summing to zero |
| Ledger.Store.PostCost | routes/cost.js:144-288 | with a fund: every failure changes nothing; a success debits exactly `amount`, never below zero, and appends one `expense` and one cost with the fund's currency and the chosen rate; without a fund: only a cost with the request's currency and rate or their defaults |
| Ledger.ReplayAfterAppend | routes/fund.js:178-194 | appending transactions changes a fund's sum by the amounts appended for it |
| Ledger.TransferPairSumsToZero | routes/fund.js:178-194 | the transfer pair gives -amount to the source, +amount to the destination and 0 to every other fund |
| FundTotal.Contribution | utils/fund.utils.js:44-66 | a fund's base amount: its balance over its per-base quote when priced, 0 (skipped) otherwise |
| FundTotal.PivotSum | utils/fund.utils.js:44-66 | `totalInSystemBase` after the loop: the contributions of the funds added in order |
| FundTotal.ToUserCurrency | utils/fund.utils.js:69-81 | the base sum times the user's rate, or the base sum unconverted when the user currency is the base or has no rate |
| FundTotal.TotalSpec | utils/fund.utils.js:10-92 | no funds give a zero total in the user's currency; funds and no table give null; otherwise the cents-rounded total, labelled with the user's currency and the number of funds |
| FundTotal.CalculateTotal | utils/fund.utils.js:10-92 | the loop computes the specified total; no funds give zero without reading the table; funds and no table give null; the currency is the argument and the count is the number of funds |
| FundTotal.PivotSumAppend | utils/fund.utils.js:44-66 | the base sum of two lists is the sum of their base sums |
| FundTotal.PivotSumPermutation | utils/fund.utils.js:44-66 | the order in which the store lists the funds does not change the base sum |
| FundTotal.SkippedFundStillCounted | utils/fund.utils.js:55-61 | a fund with no usable rate adds nothing to the sum but is still counted |
| FundTotal.AllInBase | utils/fund.utils.js:48-50 | funds in the base add their balances unchanged |
| FundTotal.TwoHopsAreDirect | utils/fund.utils.js:44-81 | when everything is priced, the two hops equal converting each fund directly with the reference factor |
| FundTotal.ListCurrency | routes/fund.js:20-30 | the authenticated user's default, otherwise the stored user's default, otherwise 'USD' |
| FundTotal.ListFundsTotal | routes/fund.js:12-52 | GET `/funds`'s total is null exactly when there are funds and no rate table |
| FundTotal.FundsTotal | routes/fund.js:209-234 | GET `/funds/total` is not-found exactly when there are funds and no rate table, otherwise the specified total |
| CostListing.Matches | routes/cost.js:25-38 | the `$match` stage: the user's own costs with `createdAt` in `[dateFrom, dateTo)` |
| CostListing.ToItem | routes/cost.js:65-88 | a missing currency becomes the user's, a missing rate becomes 1, a stored rate (even 0) is kept, and the item value is within 1/2 of amount times rate |
| CostListing.Items | routes/cost.js:25-38 | an item is listed exactly when some cost of the user has `createdAt` in `[dateFrom, dateTo)`, and as many times as there are such costs giving it |
| CostListing.CategoryOrder | routes/cost.js:89-91 | the categories of the items, each exactly once |
| CostListing.ItemsIn | routes/cost.js:97-111 | exactly the items of one category, each as many times as it occurs |
| CostListing.SumAmounts | routes/cost.js:92-94 | `$sum` of the rounded item values |
| CostListing.MakeGroup | routes/cost.js:89-122 | a group is non-empty, holds its category's items, is named after its first item's category and totals the exact sum of their rounded values |
| CostListing.Grouped | routes/cost.js:89-113 | one group per category, in order |
| CostListing.Insert | routes/cost.js:123-127 | inserting into the ordering adds exactly that group |
| CostListing.SortDesc | routes/cost.js:123-127 | the ordering is a permutation, by total, largest first |
| CostListing.SortDescDistinct | routes/cost.js:123-127 | ordering never duplicates a category |
| CostListing.Listed | routes/cost.js:89-127 | the `$group` stage, one group per category, followed by the `$sort` by total, largest first |
| CostListing.ListCosts | routes/cost.js:11-128 | an unknown user is not-found; otherwise the ordered groups of the user's matching costs in the user's currency |
| CostListing.ListedGroups | routes/cost.js:89-122 | every listed group is labelled with the user's currency, holds exactly its category's matching items, is never empty and totals their exact sum |
| CostListing.ListedCovers | routes/cost.js:89-113 | every category of a matching cost has a group |
| CostListing.ListedOrdered | routes/cost.js:89-127 | the groups come out in non-increasing order of total, no category twice |
| CostListing.SortDescTotal | routes/cost.js:123-127 | ordering keeps the sum of the group totals |
| CostListing.CategoryTotalsCover | routes/cost.js:89-94 | summing per category over all categories gives the sum over all items |
| CostListing.ListedTotal | routes/cost.js:89-122 | the group totals add up to the sum of the values of all matching costs |

## Left out

- HTTP: status codes, request parsing, message texts and the `500` catch-all paths are left out. Errors are reduced to their kind.
- The upstream `fetch` and JSON decoding (services/exchangeRateService.js:25-34) are replaced by an input: an `ok` flag and the decoded payload. The API key is a parameter instead of the environment.
- Clocks: `updatedAt` of the rate document and the funds, and the cost's `createdAt`, are left out or given as the `now` parameter. The cron job (jobs/exchangeRateCron.js) is not modelled; a refresh is a method call.
- Authentication (`checkAccessToken`, utils/auth.utils.js) is not modelled. The caller's id and user record are parameters.
- Apart from `isDefault`'s `false` default (models/Fund.js:21) and the optional `fundId`, absent as null (models/Cost.js:26), schema validation and defaults are not modelled: required fields, the 'THB' schema default of `defaultCurrency`, and a save rejected by validation. In particular a cost save that fails after the fund was debited is not modelled.
- The `$lookup`/`$unwind` joins (routes/cost.js:40-64) are not modelled. Costs arrive in `CostListing` already joined with their category, so costs whose category no longer exists are not dropped by the model. Grouped items keep the whole cost record instead of the projected fields; `icon` is not modelled.
- CostListing.SortDesc: fixes one order among groups with equal totals, namely first appearance, where MongoDB's `$sort` leaves it unspecified. Every lemma about the listing holds for any such order.
- CostListing.MakeGroup: the group's name is its first item's category name (`$first`). In the store every item of a group was joined with the same category document, so the choice does not matter. The model does not force one name per category id on its joined input, so there only the first item decides.
- The date bounds are integers. `new Date(...)` of a malformed query string (an invalid date) is not modelled.
- Ids: ObjectId casting and malformed ids are not modelled. Fund ids come from a counter that only fund creation advances, so a new id is never reused, not even one of a deleted fund.
- GET `/funds/:id` and GET `/funds/:id/transactions` (routes/fund.js:236-274) are plain reads with no money logic and are not modelled. GET `/funds` and GET `/funds/total` take the user's funds as an input list rather than querying them.
- Concurrency and crash atomicity: each handler is one atomic step. The separate writes of a transfer (routes/fund.js:185-198) and of a cost post (routes/cost.js:243-277) are not interleaved.
- IEEE floating point: amounts and rates are exact rationals, so `0.1 + 0.2` style drift is not modelled.
- Ledger.Patch: assumes that `findByIdAndUpdate` drops keys whose value is `undefined` (routes/fund.js:100-104), the Mongoose default from version 6; under Mongoose 5 with `omitUndefined: false` an absent field would be cleared instead of kept.
- Descriptive fund fields (`icon`, `description`) and the cost's `_id` are left out because nothing in the core reads them.


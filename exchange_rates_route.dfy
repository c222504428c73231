/** The two exchange-rate endpoints: read the current view and refresh on
    demand, both answering the same view shape. */
module ExchangeRatesRoute {
  import opened Common
  import opened Rates
  import opened RateService

  /** GET `/current`: not-found without a stored document, otherwise the
      view of the stored document. The store is only read. */
  method Current(store: RateStore) returns (r: Result<RatesView>)
    ensures store.doc.None? ==> r == Failure(RatesNotFound)
    ensures store.doc.Some? ==> r.Success? && r.value == ViewOf(store.doc.value)
    ensures r.Success? ==> r.value.rates[r.value.base] == 1.0
  {
    var exchangeRate := store.GetRates();
    if exchangeRate.None? {
      return Failure(RatesNotFound);
    }
    var view := BuildView(exchangeRate.value);
    r := Success(view);
  }

  /** POST `/update`: refresh the store, then answer the view of the freshly
      stored document; a refresh failure is passed on and stores nothing. */
  method Update(store: RateStore, apiKey: Option<string>, response: Response) returns (r: Result<RatesView>)
    modifies store
    ensures CheckPayload(apiKey, response).Failure? ==>
              r == Failure(CheckPayload(apiKey, response).error) && store.doc == old(store.doc)
    ensures CheckPayload(apiKey, response).Success? ==>
              var (base, quotes) := CheckPayload(apiKey, response).value;
              store.doc.Some? && store.doc.value.base == base &&
              RatesObject(store.doc.value.rates) == EntriesMap(Stripped(quotes, base)) &&
              r == Success(ViewOf(store.doc.value)) && r.value.base == base
  {
    var updated := store.UpdateRates(apiKey, response);
    if updated.Failure? {
      return Failure(updated.error);
    }
    var view := BuildView(updated.value);
    r := Success(view);
  }
}

/** The rate store: the single stored rate document, its lookup and its
    wholesale refresh from an upstream quote payload. */
module RateService {
  import opened Common
  import opened Rates

  /** `s` holds `p` starting at position `j`. */
  predicate MatchAt(s: string, p: string, j: nat) {
    j + |p| <= |s| && s[j..j + |p|] == p
  }

  /** The first position at or after `k` where `p` occurs in `s`. */
  function IndexFrom(s: string, p: string, k: nat): (r: Option<nat>)
    requires k <= |s|
    ensures r.Some? ==> k <= r.value && MatchAt(s, p, r.value)
    ensures r.Some? ==> forall j :: k <= j < r.value ==> !MatchAt(s, p, j)
    ensures r.None? ==> forall j :: k <= j <= |s| ==> !MatchAt(s, p, j)
    decreases |s| - k
  {
    if k + |p| > |s| then None
    else if s[k..k + |p|] == p then Some(k)
    else if k == |s| then None
    else IndexFrom(s, p, k + 1)
  }

  /** JavaScript `s.indexOf(p)`. */
  function IndexOf(s: string, p: string): (r: Option<nat>)
    ensures r.Some? ==> MatchAt(s, p, r.value)
    ensures r.Some? ==> forall j: nat :: j < r.value ==> !MatchAt(s, p, j)
    ensures r.None? ==> forall j: nat :: j <= |s| ==> !MatchAt(s, p, j)
  {
    IndexFrom(s, p, 0)
  }

  /** JavaScript `s.replace(p, "")` with a string pattern: the first
      occurrence of `p` is deleted; without one, `s` is unchanged. */
  function StripFirst(s: string, p: string): (r: string)
    ensures IndexOf(s, p).None? ==> r == s
    ensures IndexOf(s, p).Some? ==>
              var i := IndexOf(s, p).value;
              |r| == |s| - |p| && i <= |r| && s == r[..i] + p + r[i..]
  {
    match IndexOf(s, p)
    case None => s
    case Some(i) =>
      var r := s[..i] + s[i + |p|..];
      assert r[..i] == s[..i] && r[i..] == s[i + |p|..];
      assert s == s[..i] + s[i..i + |p|] + s[i + |p|..];
      r
  }

  /** A quote key built as base followed by the target code loses exactly
      the base prefix: `USDTHB` becomes `THB`. */
  lemma {:induction false} StripFirstOfQuoteKey(base: string, target: string)
    ensures StripFirst(base + target, base) == target
  {
    assert MatchAt(base + target, base, 0) by {
      assert (base + target)[..|base|] == base;
    }
    var r := StripFirst(base + target, base);
    assert IndexOf(base + target, base) == Some(0);
    assert base + target == r[..0] + base + r[0..];
    assert r == target;
  }

  type Quote = (string, real)

  /** The quote list with every key stripped of the base string. */
  function Stripped(quotes: seq<Quote>, base: string): (e: seq<Entry>)
    ensures |e| == |quotes|
    ensures forall i :: 0 <= i < |quotes| ==> e[i] == (StripFirst(quotes[i].0, base), quotes[i].1)
  {
    seq(|quotes|, i requires 0 <= i < |quotes| => (StripFirst(quotes[i].0, base), quotes[i].1))
  }

  /** JavaScript `Map.prototype.set`: an existing key keeps its position
      and takes the new value; a new key is appended. */
  function MapSet(e: seq<Entry>, k: Currency, v: real): seq<Entry> {
    if e == [] then [(k, v)]
    else if e[0].0 == k then [(k, v)] + e[1..]
    else [e[0]] + MapSet(e[1..], k, v)
  }

  lemma {:induction false} MapSetKeys(e: seq<Entry>, k: Currency, v: real)
    ensures KeysOf(MapSet(e, k, v)) == KeysOf(e) + {k}
    ensures |MapSet(e, k, v)| == if k in KeysOf(e) then |e| else |e| + 1
  {
    if e != [] {
      MapSetKeys(e[1..], k, v);
      KeysOfFront(e);
      var m := MapSet(e, k, v);
      KeysOfFront(m);
      if e[0].0 == k {
        assert m[0].0 == k && m[1..] == e[1..];
      } else {
        assert m[0] == e[0] && m[1..] == MapSet(e[1..], k, v);
      }
    } else {
      assert MapSet(e, k, v)[0].0 == k;
    }
  }

  /** `Map.set` keeps the keys distinct. */
  lemma {:induction false} MapSetDistinct(e: seq<Entry>, k: Currency, v: real)
    requires DistinctKeys(e)
    ensures DistinctKeys(MapSet(e, k, v))
  {
    var m := MapSet(e, k, v);
    DistinctFront(m);
    if e != [] {
      DistinctFront(e);
      if e[0].0 == k {
        assert m[0].0 == k && m[1..] == e[1..];
      } else {
        MapSetDistinct(e[1..], k, v);
        MapSetKeys(e[1..], k, v);
        assert m[0] == e[0] && m[1..] == MapSet(e[1..], k, v);
      }
    } else {
      assert m[1..] == [];
    }
  }

  /** On distinct keys, `Map.set` is assignment of the key in the object. */
  lemma {:induction false} MapSetEntries(e: seq<Entry>, k: Currency, v: real)
    requires DistinctKeys(e)
    ensures EntriesMap(MapSet(e, k, v)) == EntriesMap(e)[k := v]
  {
    if e != [] {
      DistinctFront(e);
      EntriesMapKeys(e[1..]);
      var m := MapSet(e, k, v);
      if e[0].0 == k {
        assert m[0] == (k, v) && m[1..] == e[1..];
      } else {
        MapSetEntries(e[1..], k, v);
        MapSetKeys(e[1..], k, v);
        EntriesMapKeys(MapSet(e[1..], k, v));
        assert m[0] == e[0] && m[1..] == MapSet(e[1..], k, v);
      }
    } else {
      assert MapSet(e, k, v)[1..] == [];
    }
  }

  /** The loop that fills `rates` from the quotes, one `Map.set` per quote.
      The result is a `Map` (distinct keys) whose plain object is the
      stripped quote list assigned in order, so a later quote wins when two
      keys collide after stripping; it never has more entries than quotes. */
  method ParseQuotes(quotes: seq<Quote>, base: string) returns (rates: seq<Entry>)
    ensures DistinctKeys(rates)
    ensures EntriesMap(rates) == EntriesMap(Stripped(quotes, base))
    ensures |rates| <= |quotes|
  {
    rates := [];
    var i := 0;
    while i < |quotes|
      invariant 0 <= i <= |quotes|
      invariant DistinctKeys(rates)
      invariant EntriesMap(rates) == EntriesMap(Stripped(quotes[..i], base))
      invariant |rates| <= i
    {
      var currency := StripFirst(quotes[i].0, base);
      ParseStep(rates, quotes, base, i);
      rates := MapSet(rates, currency, quotes[i].1);
      i := i + 1;
    }
    assert quotes[..i] == quotes;
  }

  /** One turn of the parsing loop keeps its invariant. */
  lemma ParseStep(rates: seq<Entry>, quotes: seq<Quote>, base: string, i: nat)
    requires i < |quotes|
    requires DistinctKeys(rates) && |rates| <= i
    requires EntriesMap(rates) == EntriesMap(Stripped(quotes[..i], base))
    ensures DistinctKeys(MapSet(rates, StripFirst(quotes[i].0, base), quotes[i].1))
    ensures EntriesMap(MapSet(rates, StripFirst(quotes[i].0, base), quotes[i].1)) ==
              EntriesMap(Stripped(quotes[..i + 1], base))
    ensures |MapSet(rates, StripFirst(quotes[i].0, base), quotes[i].1)| <= i + 1
  {
    var currency := StripFirst(quotes[i].0, base);
    MapSetDistinct(rates, currency, quotes[i].1);
    MapSetEntries(rates, currency, quotes[i].1);
    MapSetKeys(rates, currency, quotes[i].1);
    assert Stripped(quotes[..i + 1], base) == Stripped(quotes[..i], base) + [(currency, quotes[i].1)];
    EntriesMapSnoc(Stripped(quotes[..i], base), currency, quotes[i].1);
  }

  /** A parsed currency exists exactly when some quote key strips to it. */
  lemma {:induction false} ParsedKeys(quotes: seq<Quote>, base: string, c: Currency)
    ensures c in EntriesMap(Stripped(quotes, base)) <==>
              exists i :: 0 <= i < |quotes| && StripFirst(quotes[i].0, base) == c
  {
    EntriesMapKeys(Stripped(quotes, base));
  }

  /** The parsed rate of a currency is the value of the last quote whose
      key strips to it; the value itself is not changed. */
  lemma {:induction false} ParsedLastWins(quotes: seq<Quote>, base: string, j: nat)
    requires j < |quotes|
    requires forall i :: j < i < |quotes| ==>
               StripFirst(quotes[i].0, base) != StripFirst(quotes[j].0, base)
    ensures StripFirst(quotes[j].0, base) in EntriesMap(Stripped(quotes, base))
    ensures EntriesMap(Stripped(quotes, base))[StripFirst(quotes[j].0, base)] == quotes[j].1
  {
    EntriesMapAt(Stripped(quotes, base), j);
  }

  /** The decoded JSON body of the upstream answer. */
  datatype Payload = Payload(success: bool, source: Option<string>, quotes: Option<seq<Quote>>)

  /** The upstream HTTP answer: its `ok` flag and its decoded body. */
  datatype Response = Response(ok: bool, data: Payload)

  /** The checks `updateRates` makes before storing anything, in order:
      the API key, `response.ok`, `data.success`, then `source` and
      `quotes`. On success it yields the base and the quote list. */
  function CheckPayload(apiKey: Option<string>, response: Response): (r: Result<(Currency, seq<Quote>)>)
    ensures r.Success? <==>
              apiKey.Some? && apiKey.value != "" && response.ok && response.data.success &&
              response.data.source.Some? && response.data.source.value != "" &&
              response.data.quotes.Some?
    ensures r.Success? ==> r.value == (response.data.source.value, response.data.quotes.value)
    ensures (apiKey.None? || apiKey.value == "") <==> r == Failure(MissingApiKey)
    ensures apiKey.Some? && apiKey.value != "" && !response.ok ==> r == Failure(RequestFailed)
    ensures r.Failure? ==> r.error in {MissingApiKey, RequestFailed, ApiError, InvalidResponse}
  {
    if apiKey.None? || apiKey.value == "" then Failure(MissingApiKey)
    else if !response.ok then Failure(RequestFailed)
    else if !response.data.success then Failure(ApiError)
    else if response.data.source.None? || response.data.source.value == "" || response.data.quotes.None? then
      Failure(InvalidResponse)
    else Success((response.data.source.value, response.data.quotes.value))
  }

  /** The store holding at most one rate document. */
  class RateStore {
    var doc: Option<RateDoc>

    constructor (initial: Option<RateDoc>)
      ensures doc == initial
    {
      doc := initial;
    }

    /** `getRates`: the stored document, or none when nothing was stored;
        no default table is ever made up. */
    method GetRates() returns (r: Option<RateDoc>)
      ensures r == doc
      ensures r.None? <==> doc.None?
    {
      r := doc;
    }

    /** `updateRates`: every failure happens before the store is written,
        so it leaves the stored document as it was; a success replaces the
        whole document by `{base: source, rates: parsed}` and returns it. */
    method UpdateRates(apiKey: Option<string>, response: Response) returns (r: Result<RateDoc>)
      modifies this
      ensures CheckPayload(apiKey, response).Failure? ==>
                r == Failure(CheckPayload(apiKey, response).error) && doc == old(doc)
      ensures CheckPayload(apiKey, response).Success? ==>
                var (base, quotes) := CheckPayload(apiKey, response).value;
                r.Success? && doc == Some(r.value) && r.value.base == base &&
                r.value.rates.AsMap? && DistinctKeys(r.value.rates.entries) &&
                RatesObject(r.value.rates) == EntriesMap(Stripped(quotes, base)) &&
                |r.value.rates.entries| <= |quotes|
    {
      var checked := CheckPayload(apiKey, response);
      if checked.Failure? {
        return Failure(checked.error);
      }
      var (base, quotes) := checked.value;
      var rates := ParseQuotes(quotes, base);
      var stored := RateDoc(base, AsMap(rates));
      doc := Some(stored);
      r := Success(stored);
    }
  }
}

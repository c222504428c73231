/** The stored rate table and the normalised views built from it.
    Convention: 1 unit of `base` buys `rates[c]` units of `c`.

    The stored `rates` field comes back from the document store either as a
    JavaScript `Map` (entries in insertion order) or as a plain object; every
    reader first copies it into a plain object, which is `RatesObject` here. */
module Rates {
  import opened Common

  type Entry = (Currency, real)

  /** The two shapes the stored `rates` field can have. */
  datatype RateShape =
    | AsMap(entries: seq<Entry>)
    | AsObject(fields: map<Currency, real>)

  /** The single stored rate document `{base, rates}`. */
  datatype RateDoc = RateDoc(base: Currency, rates: RateShape)

  /** The rates view answered by the exchange-rate routes. */
  datatype RatesView = RatesView(base: Currency, rates: map<Currency, real>)

  /** The keys of a list of entries. */
  function KeysOf(e: seq<Entry>): set<Currency> {
    set i | 0 <= i < |e| :: e[i].0
  }

  /** No key occurs twice, as in a JavaScript `Map`. */
  ghost predicate DistinctKeys(e: seq<Entry>) {
    forall i, j :: 0 <= i < j < |e| ==> e[i].0 != e[j].0
  }

  /** The object obtained by assigning the entries one after the other:
      a later entry for the same key overwrites an earlier one. */
  function EntriesMap(e: seq<Entry>): map<Currency, real> {
    if e == [] then map[]
    else
      var rest := EntriesMap(e[1..]);
      if e[0].0 in rest then rest else rest[e[0].0 := e[0].1]
  }

  /** The keys of a non-empty list: the first key and the keys of the rest. */
  lemma KeysOfFront(e: seq<Entry>)
    requires e != []
    ensures KeysOf(e) == {e[0].0} + KeysOf(e[1..])
  {
    forall k | k in KeysOf(e) ensures k in {e[0].0} + KeysOf(e[1..]) {
      var i :| 0 <= i < |e| && e[i].0 == k;
      if i > 0 { assert e[1..][i - 1].0 == k; }
    }
    forall k | k in KeysOf(e[1..]) ensures k in KeysOf(e) {
      var i :| 0 <= i < |e[1..]| && e[1..][i].0 == k;
      assert e[i + 1].0 == k;
    }
  }

  /** A non-empty list has distinct keys exactly when its rest does and
      the first key does not occur again. */
  lemma DistinctFront(e: seq<Entry>)
    requires e != []
    ensures DistinctKeys(e) <==> DistinctKeys(e[1..]) && e[0].0 !in KeysOf(e[1..])
  {
    var tail := e[1..];
    if DistinctKeys(e) {
      forall i, j | 0 <= i < j < |tail| ensures tail[i].0 != tail[j].0 {
        assert tail[i] == e[i + 1] && tail[j] == e[j + 1];
      }
      forall i | 0 <= i < |tail| ensures tail[i].0 != e[0].0 {
        assert tail[i] == e[i + 1];
      }
    }
    if DistinctKeys(tail) && e[0].0 !in KeysOf(tail) {
      forall i, j | 0 <= i < j < |e| ensures e[i].0 != e[j].0 {
        assert e[j] == tail[j - 1];
        if i > 0 {
          assert e[i] == tail[i - 1];
        } else {
          assert tail[j - 1].0 in KeysOf(tail);
        }
      }
    }
  }

  lemma {:induction false} EntriesMapKeys(e: seq<Entry>)
    ensures EntriesMap(e).Keys == KeysOf(e)
  {
    if e != [] {
      EntriesMapKeys(e[1..]);
      KeysOfFront(e);
    }
  }

  /** Assigning one more entry at the end updates the object at that key. */
  lemma {:induction false} EntriesMapSnoc(e: seq<Entry>, k: Currency, v: real)
    ensures EntriesMap(e + [(k, v)]) == EntriesMap(e)[k := v]
  {
    if e == [] {
      assert [(k, v)][1..] == [];
    } else {
      assert (e + [(k, v)])[1..] == e[1..] + [(k, v)];
      EntriesMapSnoc(e[1..], k, v);
    }
  }

  /** An entry that no later entry overrides gives the object's value for
      its key. */
  lemma {:induction false} EntriesMapAt(e: seq<Entry>, j: nat)
    requires j < |e|
    requires forall i :: j < i < |e| ==> e[i].0 != e[j].0
    ensures e[j].0 in EntriesMap(e) && EntriesMap(e)[e[j].0] == e[j].1
  {
    EntriesMapKeys(e[1..]);
    if j > 0 {
      forall i | j - 1 < i < |e[1..]| ensures e[1..][i].0 != e[1..][j - 1].0 {
        assert e[1..][i] == e[i + 1];
      }
      EntriesMapAt(e[1..], j - 1);
    }
  }

  /** The plain object every reader builds from the stored field. */
  function RatesObject(shape: RateShape): map<Currency, real> {
    match shape
    case AsMap(entries) => EntriesMap(entries)
    case AsObject(fields) => fields
  }

  /** `const rates = {}` followed by `forEach` on a `Map` or
      `Object.assign` on an object. */
  method ToRatesObject(shape: RateShape) returns (m: map<Currency, real>)
    ensures m == RatesObject(shape)
  {
    match shape
    case AsMap(entries) =>
      m := map[];
      var i := 0;
      while i < |entries|
        invariant 0 <= i <= |entries|
        invariant m == EntriesMap(entries[..i])
      {
        assert entries[..i + 1] == entries[..i] + [entries[i]];
        EntriesMapSnoc(entries[..i], entries[i].0, entries[i].1);
        m := m[entries[i].0 := entries[i].1];
        i := i + 1;
      }
      assert entries[..i] == entries;
    case AsObject(fields) =>
      m := map[] + fields;
  }

  /** The view of a stored document: the stored rates with `base` mapped
      to 1, overwriting any stored entry for it. */
  function ViewOf(doc: RateDoc): (v: RatesView)
    ensures v.base == doc.base && v.rates.Keys == RatesObject(doc.rates).Keys + {doc.base}
    ensures v.rates[doc.base] == 1.0
    ensures forall c :: c in RatesObject(doc.rates) && c != doc.base ==> v.rates[c] == RatesObject(doc.rates)[c]
  {
    RatesView(doc.base, RatesObject(doc.rates)[doc.base := 1.0])
  }

  /** `ratesObject` in the exchange-rate routes: copy, then set the base. */
  method BuildView(doc: RateDoc) returns (v: RatesView)
    ensures v == ViewOf(doc)
    ensures v.base == doc.base
    ensures v.rates.Keys == RatesObject(doc.rates).Keys + {doc.base}
    ensures v.rates[doc.base] == 1.0
    ensures forall c :: c in RatesObject(doc.rates) && c != doc.base ==>
                  v.rates[c] == RatesObject(doc.rates)[c]
  {
    var ratesObject := ToRatesObject(doc.rates);
    ratesObject := ratesObject[doc.base := 1.0];
    v := RatesView(doc.base, ratesObject);
  }

  /** The view keys are exactly the base and the currencies listed in the
      stored `Map`, and every non-base currency keeps its stored rate. */
  lemma {:induction false} ViewOfMapShape(base: Currency, e: seq<Entry>, j: nat)
    requires DistinctKeys(e) && j < |e| && e[j].0 != base
    ensures ViewOf(RateDoc(base, AsMap(e))).rates.Keys == KeysOf(e) + {base}
    ensures ViewOf(RateDoc(base, AsMap(e))).rates[e[j].0] == e[j].1
    ensures ViewOf(RateDoc(base, AsMap(e))).rates[base] == 1.0
  {
    EntriesMapKeys(e);
    EntriesMapAt(e, j);
  }

  /** A `Map`-shaped and an object-shaped stored field holding the same
      pairs give the same view. */
  lemma {:induction false} ShapesGiveSameView(base: Currency, e: seq<Entry>, fields: map<Currency, real>)
    requires DistinctKeys(e)
    requires fields.Keys == KeysOf(e)
    requires forall i :: 0 <= i < |e| ==> fields[e[i].0] == e[i].1
    ensures ViewOf(RateDoc(base, AsMap(e))) == ViewOf(RateDoc(base, AsObject(fields)))
  {
    EntriesMapKeys(e);
    forall c | c in fields ensures EntriesMap(e)[c] == fields[c] {
      var i :| 0 <= i < |e| && e[i].0 == c;
      EntriesMapAt(e, i);
    }
    assert EntriesMap(e) == fields;
  }
}

/** Shared vocabulary of the money core: optional values, results, the error
    kinds the handlers distinguish, JavaScript truthiness of request values
    and the two rounding operators the source relies on. */
module Common {

  /** An ISO 4217 style currency code; nothing in the source validates it. */
  type Currency = string

  datatype Option<T> = None | Some(value: T) {
    function GetOr(default: T): T {
      match this
      case Some(v) => v
      case None => default
    }
  }

  datatype Result<T> = Success(value: T) | Failure(error: Error)

  /** A document lookup by id: the document, or none. */
  function Lookup<K, V>(m: map<K, V>, k: K): (r: Option<V>)
    ensures r.Some? <==> k in m
    ensures r.Some? ==> r.value == m[k]
  {
    if k in m then Some(m[k]) else None
  }

  /** The error kinds the handlers answer with (HTTP status and message text
      are not modelled). */
  datatype Error =
    | FundNotFound
    | UserNotFound
    | RatesNotFound
    | InsufficientFunds
    | SameFunds
    | FundsNotAccessible
    | RateNotFound(currency: Currency)
    | UserRateNotFound(currency: Currency)
    | MissingApiKey
    | RequestFailed
    | ApiError
    | InvalidResponse

  /** `s || d` for an optional string: absent and empty strings are falsy. */
  function StrOr(s: Option<string>, d: string): (r: string)
    ensures r == d <==> s.None? || s.value == "" || s.value == d
    ensures r != d ==> s == Some(r)
  {
    if s.Some? && s.value != "" then s.value else d
  }

  /** `x || 1` for an optional number: absent and zero are falsy. */
  function NumOrOne(x: Option<real>): (r: real)
    ensures r != 0.0
    ensures x.Some? && x.value != 0.0 ==> r == x.value
    ensures x.None? || x.value == 0.0 ==> r == 1.0
  {
    if x.Some? && x.value != 0.0 then x.value else 1.0
  }

  /** JavaScript `Math.round`: the nearest integer, ties towards +infinity. */
  function MathRound(x: real): (n: int)
    ensures n as real - 0.5 <= x < n as real + 0.5
  {
    (x + 0.5).Floor
  }

  lemma {:induction false} MathRoundUnique(x: real, n: int)
    requires n as real - 0.5 <= x < n as real + 0.5
    ensures MathRound(x) == n
  {
    var m := MathRound(x);
    assert m as real - 0.5 <= x < m as real + 0.5;
    assert m - 1 < n < m + 1;
  }

  /** MongoDB `$round` to 0 places: the nearest integer, ties to even. */
  function RoundHalfEven(x: real): (n: int)
    ensures n as real - 0.5 <= x <= n as real + 0.5
    ensures x == n as real - 0.5 || x == n as real + 0.5 ==> n % 2 == 0
  {
    var f := x.Floor;
    var d := x - f as real;
    if d < 0.5 then f
    else if d > 0.5 then f + 1
    else if f % 2 == 0 then f
    else f + 1
  }

  /** Rounding an integral value with `$round` leaves it unchanged. */
  lemma {:induction false} RoundHalfEvenOfInt(k: int)
    ensures RoundHalfEven(k as real) == k
  {
  }

  /** `Math.round(x * 100) / 100`: x to the nearest cent, ties upwards. */
  function RoundCents(x: real): (r: real)
    ensures r * 100.0 == MathRound(x * 100.0) as real
    ensures x - 0.005 < r <= x + 0.005
  {
    var n := MathRound(x * 100.0);
    var r := n as real / 100.0;
    assert r * 100.0 == n as real;
    assert r * 100.0 - 0.5 <= x * 100.0 < r * 100.0 + 0.5;
    r
  }
}

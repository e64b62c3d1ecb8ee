/** JavaScript values as the request handlers see them once the JSON body has
    been parsed: JSON values, `undefined`, truthiness, and thrown values. */
module Js {

  /** `None` stands for `undefined` (a missing field, an unset variable). */
  datatype Option<+T> = None | Some(value: T)

  /** A JavaScript number. JSON parsing yields finite values and, for an
      out-of-range literal such as `1e400`, an infinity. */
  datatype Number = Finite(value: real) | PosInfinity | NegInfinity | NaN

  /** A parsed JSON value. */
  datatype Json =
    | JNull
    | JBool(b: bool)
    | JNum(n: Number)
    | JStr(s: string)
    | JArray(items: seq<Json>)
    | JObject(members: map<string, Json>)

  /** The falsy JSON values: `null`, `false`, `0` (and `-0`, the same real),
      `NaN` and `""`. */
  const FalsyValues: set<Json> := {JNull, JBool(false), JNum(Finite(0.0)), JNum(NaN), JStr("")}

  /** JavaScript truthiness of a possibly-undefined value: `undefined` and the
      falsy values are falsy, everything else (including empty arrays and
      objects, and the infinities) is truthy. */
  predicate Truthy(v: Option<Json>): (r: bool)
    ensures r <==> v.Some? && v.value !in FalsyValues
  {
    match v
    case None => false
    case Some(j) =>
      match j
      case JNull => false
      case JBool(b) => b
      case JNum(n) => !(n.NaN? || n == Finite(0.0))
      case JStr(s) => s != ""
      case JArray(_) => true
      case JObject(_) => true
  }

  /** `typeof v === 'number'` */
  predicate IsNumber(v: Option<Json>) {
    v.Some? && v.value.JNum?
  }

  /** `Number.isFinite(v) && v > 0` for a value that is a number. */
  predicate IsPositiveFinite(v: Option<Json>) {
    IsNumber(v) && v.value.n.Finite? && v.value.n.value > 0.0
  }

  /** A thrown value: an `Error` instance carrying its message, or anything else. */
  datatype Thrown = ErrorObject(message: string) | NonError

  /** The outcome of a call that may throw. */
  datatype Attempt<+T> = Returned(value: T) | Threw(thrown: Thrown)

  const UnexpectedError: string := "Unexpected error"

  /** The message every handler's `catch` puts in its 500 response. */
  function CaughtMessage(e: Thrown): (m: string)
    ensures e.ErrorObject? ==> m == e.message
    ensures e.NonError? ==> m == "Unexpected error"
  {
    match e
    case ErrorObject(m) => m
    case NonError => UnexpectedError
  }
}

/**
 * JavaScript values as they cross the payment API: JSON-like data, objects
 * as string-keyed maps, and thrown errors.
 */
module Js {
  import opened Wrappers

  /** A JavaScript value restricted to what travels as JSON (numbers are integers: minor units). */
  datatype Json =
    | Undefined
    | Null
    | Bool(b: bool)
    | Num(n: int)
    | Str(s: string)
    | Arr(items: seq<Json>)
    | Obj(fields: Body)

  /** A plain JavaScript object. */
  type Body = map<string, Json>

  /** A thrown error; `message` is None when the error has no message. */
  datatype Error = Error(message: Option<string>)

  /** Property access `obj.key`: a missing key reads as `undefined`. */
  function Field(obj: Body, key: string): (v: Json)
    ensures key !in obj ==> v == Undefined
    ensures key in obj ==> v == obj[key]
  {
    if key in obj then obj[key] else Undefined
  }

  /** `error.message` as a value. */
  function MessageValue(e: Error): (v: Json)
    ensures e.message.None? <==> v == Undefined
    ensures e.message.Some? ==> v == Str(e.message.value)
  {
    match e.message
    case Some(m) => Str(m)
    case None => Undefined
  }

  /** `text || fallback`: the empty string is falsy. */
  function OrText(text: Option<string>, fallback: string): (r: string)
    ensures text.Some? && text.value != "" ==> r == text.value
    ensures text.None? || text == Some("") ==> r == fallback
  {
    match text
    case Some(t) => if t != "" then t else fallback
    case None => fallback
  }

  /** `number || fallback`: zero is falsy. */
  function OrNumber(number: Option<int>, fallback: int): (r: int)
    ensures number.Some? && number.value != 0 ==> r == number.value
    ensures number.None? || number == Some(0) ==> r == fallback
  {
    match number
    case Some(n) => if n != 0 then n else fallback
    case None => fallback
  }

  /** `new Error(m)`. */
  function Raise(m: string): (e: Error)
    ensures e.message == Some(m)
  {
    Error(Some(m))
  }
}

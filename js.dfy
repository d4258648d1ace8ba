/**
 * The JavaScript values the pages hold and send: JSON values (numbers are
 * the integers the API carries), objects as maps from keys to values, the
 * `||` and truthiness rules, and `parseInt` as `JSON.stringify` sends it.
 */
module Js {
  import opened Base
  import Text

  datatype Value = Undefined | Null | Bool(b: bool) | Num(n: int) | Str(s: string)

  /** An object literal or spread copy: its own keys and their values. */
  type Object = map<string, Value>

  /** What an event handler sends (`None` when it stops at validation) and the form state it leaves. */
  datatype Outcome = Outcome(sent: Option<Object>, form: Object)

  /** `o[k]`: `undefined` for a key the object does not have. */
  function Get(o: Object, k: string): (v: Value)
    ensures k !in o ==> v == Undefined
    ensures k in o ==> v == o[k]
  {
    if k in o then o[k] else Undefined
  }

  /** JavaScript truthiness: `false`, `0`, `""`, `null` and `undefined` are falsy. */
  predicate Truthy(v: Value)
  {
    match v
    case Undefined => false
    case Null => false
    case Bool(b) => b
    case Num(n) => n != 0
    case Str(s) => s != ""
  }

  /** `a || b`. */
  function Or(a: Value, b: Value): (r: Value)
    ensures Truthy(a) ==> r == a
    ensures !Truthy(a) ==> r == b
  {
    if Truthy(a) then a else b
  }

  /**
   * `parseInt(v)` as it is sent: `parseInt` reads `String(v)`, and NaN
   * becomes `null` in JSON. A number is read back as itself.
   */
  function ParseInt(v: Value): (r: Value)
    ensures r.Num? || r == Null
    ensures v.Num? ==> r == v
    ensures v.Str? ==> (r.Num? <==> Text.JsParseInt(v.s).Some?)
    ensures v.Str? && r.Num? ==> Text.JsParseInt(v.s) == Some(r.n)
  {
    match v
    case Num(n) =>
      Text.JsParseIntOfIntToString(n);
      Num(Text.JsParseInt(Text.IntToString(n)).value)
    case Str(s) => if Text.JsParseInt(s).Some? then Num(Text.JsParseInt(s).value) else Null
    case _ => Null
  }

  /** `s.split('T')[0]`: the `YYYY-MM-DD` part of an ISO date-time. */
  function DatePart(s: string): (r: string)
    ensures r <= s && 'T' !in r
  {
    Text.Before(s, 'T')
  }

  /** Cutting a date that has no time part leaves it as it is. */
  lemma DatePartOfDate(s: string)
    requires 'T' !in s
    ensures DatePart(s) == s
  {
    Text.BeforeAbsent(s, 'T');
  }

  /** `x.split('T')[0]` on a value: defined on strings, which is what the API sends for dates. */
  function DatePartOf(v: Value): (r: Value)
    ensures v.Str? ==> r == Str(DatePart(v.s))
    ensures !v.Str? ==> r == v
  {
    if v.Str? then Str(DatePart(v.s)) else v
  }
}

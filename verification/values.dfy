/** The JavaScript values that reach the logger as log arguments and level candidates. */
module Values {
  import JsText

  /**
   * A JavaScript value as far as the logger tells them apart: numbers are the
   * integers (the only numbers a level table holds), an array holds its
   * elements, and every other object is an opaque reference.
   */
  datatype Value = Undefined | Null | Bool(b: bool) | Num(n: int) | Str(s: string) | Array(items: seq<Value>) | Object(ref: nat)

  /** The `typeof` tag the lookups branch on. */
  function TypeOf(v: Value): (r: string)
    ensures r == "string" <==> v.Str?
    ensures r == "number" <==> v.Num?
  {
    match v
    case Undefined => "undefined"
    case Null => "object"
    case Bool(_) => "boolean"
    case Num(_) => "number"
    case Str(_) => "string"
    case Array(_) => "object"
    case Object(_) => "object"
  }

  /**
   * The property key JavaScript derives from a value used as `obj[value]`:
   * its string conversion. An array converts to its elements joined with
   * commas, a `null` or `undefined` element giving the empty text; other
   * objects convert to `[object Object]`.
   */
  function PropertyKey(v: Value): (r: string)
    ensures v.Str? ==> r == v.s
    ensures v.Num? ==> r == JsText.IntToString(v.n)
    ensures v == Undefined ==> r == "undefined"
    ensures v == Null ==> r == "null"
    ensures v.Object? ==> r == "[object Object]"
    decreases v
  {
    match v
    case Undefined => "undefined"
    case Null => "null"
    case Bool(b) => if b then "true" else "false"
    case Num(n) => JsText.IntToString(n)
    case Str(s) => s
    case Array(items) =>
      if items == [] then ""
      else JsText.Join(seq(|items|, i requires 0 <= i < |items| =>
        if items[i].Undefined? || items[i].Null? then "" else PropertyKey(items[i])), ',')
    case Object(_) => "[object Object]"
  }

  /**
   * An array of one element is the key of that element, so `levels[['warn']]`
   * reads `levels.warn`; an empty array, or one holding only `null`, is the
   * empty key.
   */
  lemma ArrayKey(x: Value)
    ensures x != Undefined && x != Null ==> PropertyKey(Array([x])) == PropertyKey(x)
    ensures x == Undefined || x == Null ==> PropertyKey(Array([x])) == ""
    ensures PropertyKey(Array([])) == ""
  {
  }
}

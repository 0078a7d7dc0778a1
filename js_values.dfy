/** The JavaScript value conventions the bridge's decisions rest on: possibly-undefined
    strings, truthiness (`!x`), the `||` fallback and strict equality (`===`). */
module JsValues {

  /** A value that may be `undefined`. */
  datatype Option<+T> = None | Some(value: T)

  /** A query-string parameter as the request parser delivers it: absent, one string, or a
      structured value (an array from a repeated key, or a nested object); structured values
      are objects, hence truthy and never strictly equal to a string or to `undefined`. */
  datatype Param = Missing | Text(text: string) | Structured

  /** JavaScript truthiness of a possibly-undefined string: `undefined` and "" are falsy. */
  predicate Truthy(v: Option<string>)
  {
    v.Some? && v.value != ""
  }

  /** JavaScript truthiness of a query parameter. */
  predicate ParamTruthy(p: Param)
  {
    match p
    case Missing => false
    case Text(s) => s != ""
    case Structured => true
  }

  /** `v || fallback` for a possibly-undefined string. */
  function OrElse(v: Option<string>, fallback: string): (r: string)
  {
    if Truthy(v) then v.value else fallback
  }

  /** `p === v`, where `v` is a cookie value (a string or `undefined`): `undefined` equals only
      `undefined`, two strings are equal only when they are the same string, and a structured
      value equals nothing. */
  predicate StrictEquals(p: Param, v: Option<string>)
    ensures p.Missing? ==> (StrictEquals(p, v) <==> v.None?)
    ensures p.Text? ==> (StrictEquals(p, v) <==> v.Some? && v.value == p.text)
    ensures p.Structured? ==> !StrictEquals(p, v)
  {
    match p
    case Missing => v.None?
    case Text(s) => v == Some(s)
    case Structured => false
  }
}

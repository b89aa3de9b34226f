/**
 * The JSON values the weather payload is read from, and the three library
 * operations the reader relies on: member lookup guarded by `contains`,
 * conversion to a string, and conversion to a double.
 */
module Json {
  import opened Wrappers

  /** All JSON numbers are reals here; integer and floating numbers that
      compare equal in the library are the same value. */
  datatype Json =
    | JNull
    | JBool(b: bool)
    | JNum(n: real)
    | JStr(s: string)
    | JArr(items: seq<Json>)
    | JObj(fields: map<string, Json>)

  /** `j.contains(key)` followed by `j[key]`: only an object has members, and
      asking any other value whether it contains a key answers no. */
  function Member(j: Json, key: string): (r: Option<Json>)
    ensures r.Some? <==> j.JObj? && key in j.fields
    ensures r.Some? ==> j.JObj? && key in j.fields && r.value == j.fields[key]
    ensures r.Some? ==> r.value < j
  {
    if j.JObj? && key in j.fields then Some(j.fields[key]) else None
  }

  /** The member `inner` of the member `outer`, when both are there. */
  function Nested(j: Json, outer: string, inner: string): (r: Option<Json>)
    ensures r.Some? ==> Member(j, outer).Some? && Member(Member(j, outer).value, inner) == r
  {
    match Member(j, outer)
    case None => None
    case Some(o) => Member(o, inner)
  }

  /** Conversion to a string: only a string converts, anything else throws. */
  function AsString(j: Json): (r: Option<string>)
    ensures r.Some? <==> j.JStr?
  {
    match j
    case JStr(s) => Some(s)
    case _ => None
  }

  /** Conversion to a double: only a number converts; a boolean, like every
      other non-number, throws. */
  function AsNumber(j: Json): (r: Option<real>)
    ensures r.Some? <==> j.JNum?
  {
    match j
    case JNum(x) => Some(x)
    case _ => None
  }
}

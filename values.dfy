/** Shared value types: an optional value, the JSON-like values held in a
    profile row, and the row itself (a record from column name to value). */
module Values {

  /** `undefined`/`null` versus a present value. */
  datatype Option<+T> = None | Some(value: T)
  {
    function GetOr(default: T): T
    {
      match this
      case Some(v) => v
      case None => default
    }
  }

  /** A JSON value as stored in or sent for a profile row. */
  datatype Value =
    | Null
    | Bool(b: bool)
    | Int(i: int)
    | Text(s: string)
    | List(items: seq<Value>)

  /** A row of `aura_profiles` (or a JSON object sent by a client): column name to value. */
  type Row = map<string, Value>

  /** JavaScript truthiness of an optional string: `undefined` and `''` are falsy. */
  predicate Truthy(s: Option<string>)
  {
    s.Some? && s.value != ""
  }

  /** `s || null` for an optional string column. */
  function OrNull(s: Option<string>): (v: Value)
    ensures v == Null <==> !Truthy(s)
    ensures v != Null ==> v == Text(s.value) && s.value != ""
  {
    if Truthy(s) then Text(s.value) else Null
  }

  /** `s || undefined` for an optional string field. */
  function OrAbsent(s: Option<string>): (r: Option<string>)
    ensures r.None? <==> !Truthy(s)
    ensures r.Some? ==> r == s && r.value != ""
  {
    if Truthy(s) then s else None
  }
}

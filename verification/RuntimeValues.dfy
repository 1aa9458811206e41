/**
 * Untyped values as the control plane receives them. A string carries what `JSON.parse`
 * makes of it (nothing when it throws), so that values parsed out of strings are finite.
 */
module RuntimeValues {
  import opened Text

  datatype Value =
    | Null
    | Bool(b: bool)
    | Number
    | Str(text: string, parsed: Option<Value>)
    | Arr(items: seq<Value>)
    | Obj(fields: map<string, Value>)

  /** `isRecord(v) ? v[key] : undefined`. */
  function Field(v: Value, key: string): Option<Value> {
    if v.Obj? && key in v.fields then Some(v.fields[key]) else None
  }

  predicate HasField(v: Value, key: string, expected: Value) { Field(v, key) == Some(expected) }

  function TextField(v: Value, key: string): Option<string> {
    match Field(v, key)
    case Some(Str(t, _)) => Some(t)
    case _ => None
  }

  /** A record in the field, or nothing. */
  function RecordField(v: Value, key: string): Option<Value> {
    match Field(v, key)
    case Some(Obj(m)) => Some(Obj(m))
    case _ => None
  }

  /** `stringList`: the non-blank strings of an array, in order. */
  function Strings(items: seq<Value>): seq<string> {
    if items == [] then []
    else (if items[0].Str? && !Blank(items[0].text) then [items[0].text] else []) + Strings(items[1..])
  }

  function StringList(v: Option<Value>): seq<string> {
    match v
    case Some(Arr(items)) => Strings(items)
    case _ => []
  }
}

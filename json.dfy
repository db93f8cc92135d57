/** Decoded JSON documents as the client sees them after `response.json()`,
    Python's subscript `doc["error"]` on them, and Python's `str()` of a
    decoded value (what an f-string prints). */
module Json {
  import opened Wrappers
  import Text

  /** A decoded document. Numbers are integers; an object keeps its
      members in document order. A document decoded by `json.loads` never
      repeats a member name (a repeated name keeps only its last value), so
      the first match `Field` finds is the only one. */
  datatype Json =
    | JNull
    | JBool(b: bool)
    | JNum(n: int)
    | JStr(s: string)
    | JArr(items: seq<Json>)
    | JObj(fields: seq<(string, Json)>)

  /** What `doc[key]` raises when it cannot answer. */
  datatype LookupError = KeyError | TypeError

  function Field(fields: seq<(string, Json)>, key: string): Option<Json>
  {
    if fields == [] then None
    else if fields[0].0 == key then Some(fields[0].1)
    else Field(fields[1..], key)
  }

  /** `doc[key]`: a member of an object, `KeyError` when the object lacks
      it, `TypeError` when the document is not an object. */
  function Subscript(doc: Json, key: string): (r: Result<Json, LookupError>)
    ensures r.Ok? <==> doc.JObj? && Field(doc.fields, key).Some?
    ensures r.Err? && r.error == KeyError <==> doc.JObj? && Field(doc.fields, key).None?
    ensures r.Ok? ==> Field(doc.fields, key) == Some(r.value)
  {
    match doc
    case JObj(fields) =>
      (match Field(fields, key)
       case Some(v) => Ok(v)
       case None => Err(KeyError))
    case _ => Err(TypeError)
  }

  /** Python's `str(v)` (when `quoted` is false) or `repr(v)` (when true,
      as inside a list or dict) of a decoded value. */
  function Show(v: Json, quoted: bool): (s: string)
    ensures v.JNull? ==> s == "None"
    ensures v.JBool? ==> s == (if v.b then "True" else "False")
    ensures v.JStr? && !quoted ==> s == v.s
    ensures v.JNum? ==> Text.ParseInt(s) == Some(v.n)
    ensures v.JArr? ==> |s| >= 2 && s[0] == '[' && s[|s| - 1] == ']'
    ensures v.JObj? ==> |s| >= 2 && s[0] == '{' && s[|s| - 1] == '}'
    decreases v
  {
    match v
    case JNull => "None"
    case JBool(b) => if b then "True" else "False"
    case JNum(n) => Text.IntRoundTrip(n); Text.IntToDecimal(n)
    case JStr(s) => if quoted then "'" + s + "'" else s
    case JArr(items) =>
      "[" + Text.Join(", ", seq(|items|, i requires 0 <= i < |items| => Show(items[i], true))) + "]"
    case JObj(fields) =>
      "{" + Text.Join(", ", seq(|fields|, i requires 0 <= i < |fields| =>
                                   "'" + fields[i].0 + "': " + Show(fields[i].1, true))) + "}"
  }

}

/** JSON-like values as the Python code handles them (the results of `json.loads` and the dicts
    it builds), and the dict operations it performs on them. */
module JsonValues {
  import opened Results

  datatype Json =
    | JNull
    | JBool(b: bool)
    | JNum(n: int)
    | JStr(s: string)
    | JList(items: seq<Json>)
    | JMap(fields: map<string, Json>)

  const EmptyList: Json := JList([])
  const EmptyMap: Json := JMap(map[])

  /** `d.get(key, default)` on a dict. */
  function Get(fields: map<string, Json>, key: string, default: Json): Json {
    if key in fields then fields[key] else default
  }

  /** Python's name for the type of a value, as it appears in the text of a TypeError or an
      AttributeError. */
  function TypeName(v: Json): string {
    match v
    case JNull => "NoneType"
    case JBool(_) => "bool"
    case JNum(_) => "int"
    case JStr(_) => "str"
    case JList(_) => "list"
    case JMap(_) => "dict"
  }

  /** The text of the AttributeError raised by `v.attr` when the type of v has no such attribute. */
  function NoAttribute(v: Json, attr: string): string {
    "'" + TypeName(v) + "' object has no attribute '" + attr + "'"
  }

  /** `obj.get(key, default)`: only a dict has `get`; on anything else it raises AttributeError. */
  function GetFrom(obj: Json, key: string, default: Json): (r: Result<Json>)
    ensures r.Ok? <==> obj.JMap?
    ensures obj.JMap? && key in obj.fields ==> r.value == obj.fields[key]
    ensures obj.JMap? && key !in obj.fields ==> r.value == default
    ensures !obj.JMap? ==> r.message == NoAttribute(obj, "get")
  {
    if obj.JMap? then Ok(Get(obj.fields, key, default)) else Err(NoAttribute(obj, "get"))
  }

  /** `d.get(key, {}).get(...)` succeeds: the key is absent, or holds a dict. */
  predicate DictOrAbsent(fields: map<string, Json>, key: string) {
    key !in fields || fields[key].JMap?
  }

  /** The output dict `out` holds at `outKey` what `src` holds at `srcKey`, or `default` when
      `src` lacks that key: what `out[outKey] = src.get(srcKey, default)` leaves behind. */
  predicate Carries(out: map<string, Json>, outKey: string, src: map<string, Json>, srcKey: string, default: Json) {
    && outKey in out
    && (srcKey in src ==> out[outKey] == src[srcKey])
    && (srcKey !in src ==> out[outKey] == default)
  }

  /** `v[key]` for a string key, with the errors Python raises for each kind of value: a
      missing key raises KeyError, whose text is the quoted key. */
  function Subscript(v: Json, key: string): Result<Json> {
    match v
    case JMap(fields) => if key in fields then Ok(fields[key]) else Err("'" + key + "'")
    case JList(_) => Err("list indices must be integers or slices, not str")
    case JStr(_) => Err("string indices must be integers, not 'str'")
    case _ => Err("'" + TypeName(v) + "' object is not subscriptable")
  }

  /** `v[0]`, with the errors Python raises for each kind of value. */
  function FirstItem(v: Json): Result<Json> {
    match v
    case JList(xs) => if xs == [] then Err("list index out of range") else Ok(xs[0])
    case JStr(s) => if s == "" then Err("string index out of range") else Ok(JStr([s[0]]))
    // a dict has string keys only, so `d[0]` raises KeyError(0), whose text is "0"
    case JMap(_) => Err("0")
    case _ => Err("'" + TypeName(v) + "' object is not subscriptable")
  }

  /** How `str(v)` or an f-string renders a value: a string as itself; any other value through
      `render`, Python's `str()` of non-strings, which this model leaves abstract. */
  function Display(v: Json, render: Json -> string): string {
    if v.JStr? then v.s else render(v)
  }
}

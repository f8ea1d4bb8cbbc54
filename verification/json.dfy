/** Decoded JSON values, as Python holds them after `json.loads`: `None`, a
    bool, a number, a string, a list or a dict. Numbers are integers here:
    every number the worker inspects is a count. */
module JsonValues {
  import opened Wrappers

  datatype Json =
    | JNull
    | JBool(b: bool)
    | JNum(n: int)
    | JStr(s: string)
    | JArr(items: seq<Json>)
    | JObj(fields: map<string, Json>)

  /** `d.get(key, default)` on a dict. */
  function Get(fields: map<string, Json>, key: string, default: Json): Json {
    if key in fields then fields[key] else default
  }

  /** Python truthiness: `None`, `False`, `0`, `""`, `[]` and `{}` are false. */
  predicate Truthy(j: Json) {
    match j
    case JNull => false
    case JBool(b) => b
    case JNum(n) => n != 0
    case JStr(s) => s != ""
    case JArr(items) => items != []
    case JObj(fields) => fields != map[]
  }

  /** `type(j).__name__` */
  function TypeName(j: Json): string {
    match j
    case JNull => "NoneType"
    case JBool(_) => "bool"
    case JNum(_) => "int"
    case JStr(_) => "str"
    case JArr(_) => "list"
    case JObj(_) => "dict"
  }

  /** `str()` of the `AttributeError` raised by `j.get(...)` when `j` is not a dict. */
  function NoGet(j: Json): string {
    "'" + TypeName(j) + "' object has no attribute 'get'"
  }

  /** `j.get(key, default)` on any value: only a dict has `get`. */
  function GetAttr(j: Json, key: string, default: Json): (r: Result<Json>)
    ensures r.Success? <==> j.JObj?
    ensures r.Success? && key in j.fields ==> r.value == j.fields[key]
    ensures r.Success? && key !in j.fields ==> r.value == default
    ensures r.Failure? ==> r.error == NoGet(j)
  {
    if j.JObj? then Success(Get(j.fields, key, default)) else Failure(NoGet(j))
  }

  /** `key` occurs in `s` as a substring. */
  predicate Substring(key: string, s: string) {
    exists i | 0 <= i <= |s| :: key <= s[i..]
  }

  /** `key in j` for a list (an element equal to the string) or a string
      (a substring). */
  predicate Holds(j: Json, key: string)
    requires j.JArr? || j.JStr?
  {
    if j.JArr? then JStr(key) in j.items else Substring(key, j.s)
  }

  /** `str()` of the `TypeError` raised by `j[key]` for a string `key`. */
  function IndexError(j: Json): string
    requires j.JArr? || j.JStr?
  {
    if j.JArr? then "list indices must be integers or slices, not str"
    else "string indices must be integers, not 'str'"
  }

  /** `str()` of the `TypeError` raised by `key in j` when `j` is neither a
      dict, a list nor a string. */
  function NotIterable(j: Json): string {
    "argument of type '" + TypeName(j) + "' is not iterable"
  }
}

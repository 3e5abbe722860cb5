/**
 The JSON-like values that flow through the server: action parameters,
 GitHub records and the normalised results. Objects are Python dicts decoded
 from JSON, modelled as maps (key order is not tracked). The module also holds
 the few Python behaviours the handlers rely on: truthiness, `type(x).__name__`,
 `dict.get`, and the text of the exceptions those raise.
 */
module Json {

  datatype Json =
    | JNull
    | JBool(b: bool)
    | JInt(i: int)
    | JStr(s: string)
    | JArr(items: seq<Json>)
    | JObj(fields: map<string, Json>)

  /** A Python computation that either returns a value or raises an
      exception; `message` is `str(e)` of the exception raised. */
  datatype Outcome<+T> = Ok(value: T) | Raised(message: string) {

    /** With these three members `var x :- e;` propagates a raised exception. */
    predicate IsFailure()
    {
      Raised?
    }

    function PropagateFailure<U>(): Outcome<U>
      requires Raised?
    {
      Raised(message)
    }

    function Extract(): T
      requires Ok?
    {
      value
    }
  }

  /** A value that may be None. */
  datatype Option<+T> = None | Some(value: T)

  /** Python truthiness (`if not x`, `x or y`) on decoded JSON values. */
  predicate Truthy(j: Json): (r: bool)
    ensures !r <==> j in {JNull, JBool(false), JInt(0), JStr(""), JArr([]), JObj(map[])}
  {
    match j
    case JNull => false
    case JBool(b) => b
    case JInt(i) => i != 0
    case JStr(s) => |s| > 0
    case JArr(items) => |items| > 0
    case JObj(fields) => |fields| > 0
  }

  /** `type(j).__name__` as Python prints it in exception messages. */
  function TypeName(j: Json): string
  {
    match j
    case JNull => "NoneType"
    case JBool(_) => "bool"
    case JInt(_) => "int"
    case JStr(_) => "str"
    case JArr(_) => "list"
    case JObj(_) => "dict"
  }

  /** The text of the AttributeError raised by `j.<attr>` when `j` has no such attribute. */
  function NoAttribute(j: Json, attr: string): string
  {
    "'" + TypeName(j) + "' object has no attribute '" + attr + "'"
  }

  /** The text of the TypeError raised by `for x in j` when `j` is not iterable. */
  function NotIterable(j: Json): string
  {
    "'" + TypeName(j) + "' object is not iterable"
  }

  /** `fields.get(key, default)` on a dict: the stored value, or the default
      when the key is missing. */
  function GetOr(fields: map<string, Json>, key: string, default: Json): (r: Json)
    ensures key in fields ==> r == fields[key]
    ensures key !in fields ==> r == default
  {
    if key in fields then fields[key] else default
  }

  /** `d.get(key, default)` on an arbitrary value: only a dict has `.get`. */
  function DictGet(d: Json, key: string, default: Json): (r: Outcome<Json>)
    ensures r.Ok? <==> d.JObj?
    ensures d.JObj? ==> r == Ok(GetOr(d.fields, key, default))
    ensures !d.JObj? ==> r == Raised(NoAttribute(d, "get"))
  {
    match d
    case JObj(fields) => Ok(GetOr(fields, key, default))
    case _ => Raised(NoAttribute(d, "get"))
  }

  /** The empty dict literal `{}`. */
  const EmptyObject: Json := JObj(map[])
}

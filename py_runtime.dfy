/**
  The few pieces of Python's runtime behaviour the back end relies on: the exceptions
  it raises or lets escape, `str()` of a decoded JSON value, dict reads, and the
  messages of the `AttributeError` / `TypeError` / `KeyError` a wrong-typed value
  provokes.  `repr` of containers is a parameter (`pyRepr`); it is never inspected.
 */
module PyRuntime {
  import opened Wrappers
  import opened Text
  import opened JsonValue

  /** An exception that escapes a Python function; `message` is what `str(e)` gives. */
  datatype PyError =
    | ValueError(message: string)
    | TypeError(message: string)
    | KeyError(message: string)
    | AttributeError(message: string)
    | NotImplementedError(message: string)
    /** `raise Exception(...)`: the base class itself, not a subclass. */
    | BareException(message: string)

  /** `str(e)`. */
  function ErrorText(e: PyError): string {
    e.message
  }

  /** The name `type(v).__name__` gives for a decoded JSON value. */
  function TypeName(j: Json): string {
    match j
    case JNull => "NoneType"
    case JBool(_) => "bool"
    case JNum(_) => "int"
    case JStr(_) => "str"
    case JArr(_) => "list"
    case JObj(_) => "dict"
  }

  /** The error of reading attribute `attr` of a value that lacks it. */
  function NoAttribute(j: Json, attr: string): (e: PyError)
    ensures e.AttributeError?
  {
    AttributeError("'" + TypeName(j) + "' object has no attribute '" + attr + "'")
  }

  /** `str(v)` (equally an f-string field `{v}`): scalars are rendered here, lists and
      dicts by `pyRepr`. */
  function PyStr(pyRepr: Json -> string, j: Json): (r: string)
    ensures j.JStr? ==> r == j.s
  {
    match j
    case JNull => "None"
    case JBool(b) => if b then "True" else "False"
    case JNum(n) => IntToString(n)
    case JStr(s) => s
    case _ => pyRepr(j)
  }

  /** `d.get(key, default)`: only a dict has `.get`. */
  function PyGet(d: Json, key: string, default: Json): (r: Result<Json, PyError>)
    ensures d.JObj? <==> r.Ok?
    ensures d.JObj? && Lookup(d, key).None? ==> r == Ok(default)
    ensures Lookup(d, key).Some? ==> r == Ok(Lookup(d, key).value)
  {
    if d.JObj? then
      match Lookup(d, key)
      case Some(v) => Ok(v)
      case None => Ok(default)
    else Err(NoAttribute(d, "get"))
  }

  /** `d[key]` with a string key. */
  function PyGetItem(d: Json, key: string): (r: Result<Json, PyError>)
    ensures r.Ok? <==> Lookup(d, key).Some?
    ensures r.Ok? ==> r.value == Lookup(d, key).value
    ensures d.JObj? && r.Err? ==> r.error == KeyError("'" + key + "'")
  {
    match d
    case JObj(_) =>
      (match Lookup(d, key)
       case Some(v) => Ok(v)
       case None => Err(KeyError("'" + key + "'")))
    case JArr(_) => Err(TypeError("list indices must be integers or slices, not str"))
    case JStr(_) => Err(TypeError("string indices must be integers, not 'str'"))
    case _ => Err(TypeError("'" + TypeName(d) + "' object is not subscriptable"))
  }
}

/** A decoded JSON document as the service's Python code sees it, and the
    Python operations the pipeline applies to one: `key in v`, `v[key]`,
    `v[0]`, `len(v)`, `v.get(key, default)`, `json.loads(v)` and `str(v)`,
    each with the exception Python raises when the value has the wrong
    shape. */
module PyJson {
  import opened Wrappers
  import opened Text

  /** A JSON value after `json.loads`: `None`, a bool, a number, a string, a
      list or a dict (JSON object keys are always strings). */
  datatype Json =
    | JNull
    | JBool(b: bool)
    | JNumber(n: int)
    | JString(s: string)
    | JArray(items: seq<Json>)
    | JObject(members: map<string, Json>)

  /** The Python exceptions these operations can raise. */
  datatype PyError = TypeError | KeyError | IndexError | AttributeError | JSONDecodeError

  /** The two library routines whose internals are not part of this model:
      `json.loads` on a string (`None` stands for `JSONDecodeError`) and
      `str()` of a value that is not already a string. */
  datatype Library = Library(loads: string -> Option<Json>, repr: Json -> string)

  /** `key in v`: key lookup in a dict, element test in a list, substring
      test in a string; any other value is not a container. */
  function Contains(v: Json, key: string): Result<bool, PyError>
  {
    match v
    case JObject(m) => Ok(key in m)
    case JArray(items) => Ok(JString(key) in items)
    case JString(s) => Ok(IsSubstring(key, s))
    case _ => Err(TypeError)
  }

  /** `v[key]` with a string key: only a dict holding the key answers. */
  function Index(v: Json, key: string): Result<Json, PyError>
  {
    match v
    case JObject(m) => if key in m then Ok(m[key]) else Err(KeyError)
    case _ => Err(TypeError)
  }

  /** `v[0]`: the first element of a list, the first character of a string;
      a dict has no key `0`, because JSON object keys are strings. */
  function Index0(v: Json): Result<Json, PyError>
  {
    match v
    case JArray(items) => if |items| > 0 then Ok(items[0]) else Err(IndexError)
    case JString(s) => if |s| > 0 then Ok(JString(s[..1])) else Err(IndexError)
    case JObject(_) => Err(KeyError)
    case _ => Err(TypeError)
  }

  /** `len(v)`. */
  function Len(v: Json): Result<nat, PyError>
  {
    match v
    case JArray(items) => Ok(|items|)
    case JString(s) => Ok(|s|)
    case JObject(m) => Ok(|m|)
    case _ => Err(TypeError)
  }

  /** `v.get(key, default)`: only a dict has a `get` method. */
  function Get(v: Json, key: string, default: Json): Result<Json, PyError>
  {
    match v
    case JObject(m) => Ok(if key in m then m[key] else default)
    case _ => Err(AttributeError)
  }

  /** `json.loads(v)`: a string is parsed; any other value is a `TypeError`. */
  function Loads(v: Json, lib: Library): Result<Json, PyError>
  {
    match v
    case JString(s) => (match lib.loads(s) case Some(parsed) => Ok(parsed) case None => Err(JSONDecodeError))
    case _ => Err(TypeError)
  }

  /** `str(v)`: a string is returned unchanged, anything else is rendered. */
  function Str(v: Json, lib: Library): string
  {
    match v
    case JString(s) => s
    case _ => lib.repr(v)
  }
}

/**
 * JSON values as Python's `json.loads` returns them, the Python exceptions the core can raise,
 * and the Python built-ins the core applies to decoded values (`float`, `len`, iteration, truth).
 * `json.loads` itself and `float()` on a string are kept abstract: they are parameters.
 */
module Json {
  import opened Wrappers
  import opened Text

  datatype Json =
    | Null
    | Bool(b: bool)
    | Int(i: int)
    | Float(f: real)
    | Str(s: string)
    | Arr(items: seq<Json>)
    | Obj(fields: map<string, Json>)

  datatype ErrorKind = JSONDecodeError | ValueError | TypeError | KeyError | AttributeError | IndexError

  /** A raised Python exception: its class and `str(e)`. */
  datatype Exception = Exception(kind: ErrorKind, message: string)

  /** `json.loads(s)`: the decoded value, or the message of the JSONDecodeError it raises. */
  type Decoder = string -> Result<Json, string>

  /**
   * `json.loads(v) if isinstance(v, str) else v`: a string is decoded first, None where decoding
   * raises; any other value is taken as it is.
   */
  function Decoded(v: Json, decode: Decoder): Option<Json> {
    if !v.Str? then Some(v)
    else
      match decode(v.s)
      case Err(_) => None
      case Ok(d) => Some(d)
  }

  /** `float(s)` for a string: its value, or None where Python raises ValueError. */
  type FloatParser = string -> Option<real>

  /** A dict that the source updates in place. */
  class JsonObject {
    var fields: map<string, Json>

    constructor (fields: map<string, Json>)
      ensures this.fields == fields
    {
      this.fields := fields;
    }
  }

  /** `type(v).__name__` */
  function TypeName(v: Json): string {
    match v
    case Null => "NoneType"
    case Bool(_) => "bool"
    case Int(_) => "int"
    case Float(_) => "float"
    case Str(_) => "str"
    case Arr(_) => "list"
    case Obj(_) => "dict"
  }

  /** `bool(v)`: None, False, zero and empty containers are falsy. */
  predicate Truthy(v: Json) {
    match v
    case Null => false
    case Bool(b) => b
    case Int(i) => i != 0
    case Float(f) => f != 0.0
    case Str(s) => s != []
    case Arr(a) => a != []
    case Obj(m) => m != map[]
  }

  /** `d.get(k)`: the value under `k`, or None. */
  function Field(d: map<string, Json>, k: string): Json {
    if k in d then d[k] else Null
  }

  /** `float(v)` */
  function ToFloat(v: Json, parseFloat: FloatParser): Result<real, Exception> {
    match v
    case Bool(b) => Ok(if b then 1.0 else 0.0)
    case Int(i) => Ok(i as real)
    case Float(f) => Ok(f)
    case Str(s) =>
      (match parseFloat(s)
       case Some(r) => Ok(r)
       case None => Err(Exception(ValueError, "could not convert string to float: '" + s + "'")))
    case _ => Err(Exception(TypeError, "float() argument must be a string or a real number, not '" + TypeName(v) + "'"))
  }

  /**
   * The items `for x in v` visits: the elements of a list, the one-character strings of a string.
   * A dict would yield its keys in document order, which a `map` does not keep: iterating a dict is
   * outside the model and reported as a TypeError.
   */
  function Iterate(v: Json): Result<seq<Json>, Exception> {
    match v
    case Arr(a) => Ok(a)
    case Str(s) => Ok(seq(|s|, k requires 0 <= k < |s| => Str([s[k]])))
    case Obj(_) => Err(Exception(TypeError, "iteration over a JSON object is not modelled"))
    case _ => Err(Exception(TypeError, "'" + TypeName(v) + "' object is not iterable"))
  }

  /** `len(v)` */
  function Len(v: Json): Result<nat, Exception> {
    match v
    case Arr(a) => Ok(|a|)
    case Str(s) => Ok(|s|)
    case Obj(m) => Ok(|m|)
    case _ => Err(Exception(TypeError, "object of type '" + TypeName(v) + "' has no len()"))
  }
}

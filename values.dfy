/** Values shared by the whole pipeline: optional values, results carrying
    the Python exception a call would raise, and the JSON-like values that
    the state dictionary, style profiles and quality reports hold. */
module Values {

  datatype Option<+T> = None | Some(value: T) {
    /** `d.get(key, default)` once the lookup has been done. */
    function GetOr(default: T): T {
      match this
      case Some(v) => v
      case None => default
    }
  }

  /** The exceptions the modelled code can raise. */
  datatype Error =
    | KeyError(key: string)
    | IndexError
    | TypeError
    | ValueError(message: string)
    | AttributeError

  datatype Result<+T> = Ok(value: T) | Err(error: Error)

  /** Outcome of a node transform that updates the state in place. */
  datatype Outcome = Done | Failed(error: Error)

  /** A value that `json.loads` can produce. */
  datatype Json =
    | JNull
    | JBool(b: bool)
    | JNum(n: real)
    | JStr(s: string)
    | JArr(items: seq<Json>)
    | JObj(fields: map<string, Json>)

  /** A Python dict with string keys. */
  type Obj = map<string, Json>

  /** `d.get(key, default)`. */
  function Get(d: Obj, key: string, default: Json): (v: Json)
    ensures key in d ==> v == d[key]
    ensures key !in d ==> v == default
  {
    if key in d then d[key] else default
  }

  /** Python truthiness of a JSON value: `None`, `False`, zero and empty
      containers are false. */
  predicate Truthy(j: Json) {
    match j
    case JNull => false
    case JBool(b) => b
    case JNum(n) => n != 0.0
    case JStr(s) => s != ""
    case JArr(items) => items != []
    case JObj(fields) => fields != map[]
  }

  /** Python's `<` between a JSON value and a float: numbers and booleans
      compare, anything else raises TypeError. */
  function LessThan(v: Json, bound: real): (r: Result<bool>)
    ensures v.JNum? ==> r == Ok(v.n < bound)
    ensures v.JBool? ==> r == Ok((if v.b then 1.0 else 0.0) < bound)
    ensures r.Err? <==> !(v.JNum? || v.JBool?)
    ensures r.Err? ==> r.error == TypeError
  {
    match v
    case JNum(n) => Ok(n < bound)
    case JBool(b) => Ok((if b then 1.0 else 0.0) < bound)
    case _ => Err(TypeError)
  }

  /** The foreign JSON library: `json.loads`, partial, restricted to
      documents whose top level is an object, and `json.dumps`. */
  datatype Foreign = Foreign(parse: string -> Option<Obj>, dumps: Json -> string)
}

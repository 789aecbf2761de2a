/**
 * Decoded JSON values as the bot receives them from the chat platform, and the
 * Python dictionary/list operations the handlers apply to them.  Every access
 * that can raise in Python returns a `Result`, so that an exception is a value
 * the handlers either catch or pass on.
 */
module Json {
  import opened Naming

  datatype Option<+T> = None | Some(value: T)

  /** The exceptions the handlers can meet while reading a payload. */
  datatype Exception =
    | KeyError        // d[k] with k missing
    | IndexError      // x[0] on an empty list or string
    | TypeError       // subscript or `in` on a value that does not support it
    | AttributeError  // .get on a value that is not a dict
    | ValueError      // int() / float() / json.loads() rejecting their text

  datatype Result<+T> = Ok(value: T) | Raise(exc: Exception) {
    predicate IsFailure() { Raise? }
    function PropagateFailure<U>(): Result<U> requires Raise? { Raise(exc) }
    function Extract(): T requires Ok? { value }
  }

  datatype Value =
    | Null
    | Bool(b: bool)
    | Num(n: real)
    | Str(s: string)
    | Arr(items: seq<Value>)
    | Obj(fields: map<string, Value>)

  const EmptyObj: Value := Obj(map[])

  /** Python truthiness of a decoded JSON value. */
  predicate Truthy(v: Value) {
    match v
    case Null => false
    case Bool(b) => b
    case Num(n) => n != 0.0
    case Str(s) => s != ""
    case Arr(items) => items != []
    case Obj(fields) => fields != map[]
  }

  /** `v.get(key, default)`: only a dict has `.get`. */
  function Get(v: Value, key: string, default: Value): (r: Result<Value>)
    ensures r.Ok? <==> v.Obj?
    ensures v.Obj? && key in v.fields ==> r == Ok(v.fields[key])
    ensures v.Obj? && key !in v.fields ==> r == Ok(default)
  {
    match v
    case Obj(fields) => Ok(if key in fields then fields[key] else default)
    case _ => Raise(AttributeError)
  }

  /** `v[key]` with a string key. */
  function At(v: Value, key: string): (r: Result<Value>)
    ensures r.Ok? <==> v.Obj? && key in v.fields
    ensures r.Ok? ==> r.value == v.fields[key]
  {
    match v
    case Obj(fields) => if key in fields then Ok(fields[key]) else Raise(KeyError)
    case _ => Raise(TypeError)
  }

  /** `v[0]`: the first item of a list or the first character of a string;
      a dict has no key 0 because decoded JSON keys are strings. */
  function First(v: Value): (r: Result<Value>)
    ensures v.Arr? && v.items != [] ==> r == Ok(v.items[0])
    ensures v.Arr? && v.items == [] ==> r == Raise(IndexError)
  {
    match v
    case Arr(items) => if items != [] then Ok(items[0]) else Raise(IndexError)
    case Str(s) => if s != "" then Ok(Str([s[0]])) else Raise(IndexError)
    case Obj(_) => Raise(KeyError)
    case _ => Raise(TypeError)
  }

  /** `needle` occurs as a contiguous part of `hay`. */
  predicate IsSubstring(needle: string, hay: string) {
    needle <= hay || (hay != [] && IsSubstring(needle, hay[1..]))
  }

  /** `key in v`: key membership for a dict, element membership for a list,
      substring test for a string; anything else is not iterable. */
  function Contains(v: Value, key: string): (r: Result<bool>)
    ensures v.Obj? ==> r == Ok(key in v.fields)
    ensures r == Raise(TypeError) <==> !(v.Obj? || v.Arr? || v.Str?)
  {
    match v
    case Obj(fields) => Ok(key in fields)
    case Arr(items) => Ok(Str(key) in items)
    case Str(s) => Ok(IsSubstring(key, s))
    case _ => Raise(TypeError)
  }

  /** A value written into a text column: a string, otherwise the insert fails. */
  function AsText(v: Value): (r: Result<string>)
    ensures r.Ok? <==> v.Str?
    ensures v.Str? ==> r.value == v.s
  {
    if v.Str? then Ok(v.s) else Raise(TypeError)
  }

  /** A value written into a nullable text column: None or a string. */
  function AsOptionalText(v: Value): (r: Result<Option<string>>)
    ensures r.Ok? <==> v.Null? || v.Str?
    ensures v.Null? ==> r == Ok(None)
    ensures v.Str? ==> r == Ok(Some(v.s))
  {
    match v
    case Null => Ok(None)
    case Str(s) => Ok(Some(s))
    case _ => Raise(TypeError)
  }

  /**
   * The parts of the Python runtime the handlers call but this model does not
   * define: parsing by `int()` and `float()` of a string, `str()` of a float,
   * `str()` of an exception, and `json.loads`.
   */
  datatype Runtime = Runtime(
    parseInt: string -> Option<int>,
    parseFloat: string -> Option<real>,
    showFloat: real -> string,
    describe: Exception -> string,
    loadJson: string -> Option<Value>)

  /**
   * What Python's `int()` and `float()` do on the strings the handlers meet:
   * `int("")` raises, `float("0")` is 0.0, and `int(str(n))` is n for every
   * non-negative n.
   */
  ghost predicate PythonParsing(rt: Runtime) {
    rt.parseInt("") == None && rt.parseFloat("0") == Some(0.0) &&
    forall n: nat :: rt.parseInt(NatToString(n)) == Some(n)
  }

  /** Truncation toward zero, as `int()` applies it to a float. */
  function Truncate(x: real): (r: int)
    ensures x >= 0.0 ==> r as real <= x < r as real + 1.0
    ensures x < 0.0 ==> r as real - 1.0 < x <= r as real
  {
    if x >= 0.0 then x.Floor else -((-x).Floor)
  }

  /** `int(v)` for a decoded JSON value. */
  function IntOf(v: Value, rt: Runtime): (r: Result<int>)
    ensures v.Str? ==> (r.Ok? <==> rt.parseInt(v.s).Some?)
    ensures v.Null? || v.Arr? || v.Obj? ==> r == Raise(TypeError)
    ensures v.Num? ==> r == Ok(Truncate(v.n))
  {
    match v
    case Num(n) => Ok(Truncate(n))
    case Bool(b) => Ok(if b then 1 else 0)
    case Str(s) => if rt.parseInt(s).Some? then Ok(rt.parseInt(s).value) else Raise(ValueError)
    case _ => Raise(TypeError)
  }

  /** `float(v)` for a decoded JSON value. */
  function FloatOf(v: Value, rt: Runtime): (r: Result<real>)
    ensures v.Str? ==> (r.Ok? <==> rt.parseFloat(v.s).Some?)
    ensures v.Null? || v.Arr? || v.Obj? ==> r == Raise(TypeError)
    ensures v.Num? ==> r == Ok(v.n)
  {
    match v
    case Num(n) => Ok(n)
    case Bool(b) => Ok(if b then 1.0 else 0.0)
    case Str(s) => if rt.parseFloat(s).Some? then Ok(rt.parseFloat(s).value) else Raise(ValueError)
    case _ => Raise(TypeError)
  }
}

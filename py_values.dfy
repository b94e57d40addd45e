/** The slice of Python's runtime the server code relies on: the values a parsed
    JSON body can hold, the exceptions the code raises or catches, and the
    conversions `int(...)` and `float(...)` applied to those values. */
module PyValues {
  import opened Wrappers

  /** A Python value as produced by `json.loads`: None, bool, int, float, str,
      list or dict (with string keys). */
  datatype Value =
    | PyNone
    | Bool(b: bool)
    | Int(i: int)
    | Float(f: real)
    | Str(s: string)
    | List(items: seq<Value>)
    | Dict(entries: map<string, Value>)

  /** The exceptions that reach the server's handlers. Messages are kept as data
      because the handlers echo `str(e)` back to the client. */
  datatype PyError =
    | TypeError(message: string)
    | ValueError(message: string)
    | ZeroDivisionError(message: string)
    | KeyError(key: string)

  /** `str(e)`: a KeyError prints its key quoted, the others print their message. */
  function Text(e: PyError): string
  {
    match e
    case KeyError(k) => "'" + k + "'"
    case TypeError(m) => m
    case ValueError(m) => m
    case ZeroDivisionError(m) => m
  }

  /** Library functions whose results the model takes as given: the string
      parsers behind `int(s)` and `float(s)` (None when Python raises
      ValueError), `math.sqrt` on a non-negative argument and `math.exp`. */
  datatype Builtins = Builtins(
    parseInt: string -> Option<int>,
    parseFloat: string -> Option<real>,
    sqrt: real -> real,
    exp: real -> real)

  /** `d.get(key)`: the entry, or None when the key is absent. */
  function Get(d: map<string, Value>, key: string): (v: Value)
    ensures key !in d ==> v == PyNone
    ensures key in d ==> v == d[key]
  {
    if key in d then d[key] else PyNone
  }

  /** Conversion of a float to int rounds toward zero. */
  function Trunc(x: real): (n: int)
    ensures x >= 0.0 ==> n as real <= x < n as real + 1.0
    ensures x < 0.0 ==> n as real - 1.0 < x <= n as real
  {
    if x >= 0.0 then x.Floor else -((-x).Floor)
  }

  /** `int(v)`. */
  function ToInt(v: Value, b: Builtins): (r: Result<int, PyError>)
    ensures v.Int? ==> r == Success(v.i)
    ensures (v.PyNone? || v.List? || v.Dict?) ==> r.Failure? && r.error.TypeError?
  {
    match v
    case PyNone => Failure(TypeError("int() argument must be a string, a bytes-like object or a real number, not 'NoneType'"))
    case Bool(x) => Success(if x then 1 else 0)
    case Int(i) => Success(i)
    case Float(f) => Success(Trunc(f))
    case Str(s) =>
      (match b.parseInt(s)
       case Some(i) => Success(i)
       case None => Failure(ValueError("invalid literal for int() with base 10")))
    case List(_) => Failure(TypeError("int() argument must be a string, a bytes-like object or a real number, not 'list'"))
    case Dict(_) => Failure(TypeError("int() argument must be a string, a bytes-like object or a real number, not 'dict'"))
  }

  /** `float(v)`. */
  function ToFloat(v: Value, b: Builtins): (r: Result<real, PyError>)
    ensures v.Float? ==> r == Success(v.f)
    ensures v.Int? ==> r == Success(v.i as real)
    ensures (v.PyNone? || v.List? || v.Dict?) ==> r.Failure? && r.error.TypeError?
  {
    match v
    case PyNone => Failure(TypeError("float() argument must be a string or a real number, not 'NoneType'"))
    case Bool(x) => Success(if x then 1.0 else 0.0)
    case Int(i) => Success(i as real)
    case Float(f) => Success(f)
    case Str(s) =>
      (match b.parseFloat(s)
       case Some(x) => Success(x)
       case None => Failure(ValueError("could not convert string to float")))
    case List(_) => Failure(TypeError("float() argument must be a string or a real number, not 'list'"))
    case Dict(_) => Failure(TypeError("float() argument must be a string or a real number, not 'dict'"))
  }
}

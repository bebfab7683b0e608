/**
 * The slice of Python's value and exception model that the futures framework
 * touches: call arguments, return values, `sys.exc_info()` triples and the
 * exceptions that the framework raises or re-raises.
 */
module Python {

  /** An exception instance: the name of its class and its message. */
  datatype Exc = Exc(kind: string, msg: string)

  /** The Python objects that travel through queues and the result cache. */
  datatype Value =
    | VNone
    | VBool(b: bool)
    | VInt(i: int)
    | VStr(s: string)
    | VList(items: seq<Value>)
    | VTuple(items: seq<Value>)
    | VDict(entries: map<string, Value>)
    | VClass(name: string)   // an exception class, as in the first slot of exc_info
    | VExc(exc: Exc)         // an exception instance
    | VTraceback             // a traceback object; its frames are opaque here

  /** The outcome of a Python call: a returned value or a raised exception. */
  datatype Result<+T> = Ok(value: T) | Err(exc: Exc)

  /** What a call of a user function produces. */
  type Outcome = Result<Value>

  datatype Option<+T> = None | Some(value: T) {
    function GetOr(default: T): T {
      match this
      case Some(v) => v
      case None => default
    }
  }

  /**
   * The built-in exception classes that derive from BaseException but not
   * from Exception; the class hierarchy is reduced to the class name.
   */
  const BaseOnlyKinds: set<string> := {"BaseException", "SystemExit", "KeyboardInterrupt", "GeneratorExit"}

  /** `isinstance(v, Exception)`. */
  predicate IsExceptionInstance(v: Value) {
    v.VExc? && v.exc.kind !in BaseOnlyKinds
  }

  /** `sys.exc_info()` inside the handler of `e`: (class, instance, traceback). */
  function ExcInfo(e: Exc): (r: Value)
    ensures r.VTuple? && |r.items| == 3 && r.items[1] == VExc(e)
  {
    VTuple([VClass(e.kind), VExc(e), VTraceback])
  }

  /** Whether a raw traceback object sits anywhere inside `v`. */
  predicate HoldsTraceback(v: Value) {
    match v
    case VTraceback => true
    case VList(items) => exists i :: 0 <= i < |items| && HoldsTraceback(items[i])
    case VTuple(items) => exists i :: 0 <= i < |items| && HoldsTraceback(items[i])
    case VDict(entries) => exists k :: k in entries && HoldsTraceback(entries[k])
    case _ => false
  }

  /** What dill raises for an object that holds a traceback, a type it cannot pickle. */
  const TracebackPickleError := Exc("TypeError", "cannot pickle 'traceback' object")

  const TupleIndexError := Exc("IndexError", "tuple index out of range")

  /** The error of `a, b, c = t` when `t` does not hold exactly three items. */
  function UnpackError(n: nat): (e: Exc)
    requires n != 3
    ensures e.kind == "ValueError"
  {
    if n < 3 then Exc("ValueError", "not enough values to unpack (expected 3)")
    else Exc("ValueError", "too many values to unpack (expected 3)")
  }
}

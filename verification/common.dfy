/** Shared vocabulary of the model: optional values, results that carry the
    Python exception a call would raise, the dynamic values that attribute
    bundles and context slots hold, and the callables that the registry
    stores without ever running them. */
module Common {

  datatype Option<+T> = None | Some(value: T) {
    function GetOr(default: T): T {
      match this
      case Some(v) => v
      case None => default
    }
  }

  /** The Python exception classes the modelled code raises. */
  datatype Error =
    | TypeError       // a non-coroutine callback, or a loop that already has a before_loop
    | RuntimeError    // an unbound plugin, sub-plugin or placeholder
    | ValueError      // an unknown autocomplete option, an undefined context value
    | IndexError      // an empty slash command name
    | LookupError     // an object that belongs to no plugin
    | AttributeError  // an attribute that does not exist on the object

  datatype Result<+T> = Ok(value: T) | Err(error: Error) {
    predicate IsFailure() { Err? }
    function PropagateFailure<U>(): Result<U>
      requires Err?
    {
      Err(error)
    }
    function Extract(): T
      requires Ok?
    {
      value
    }
  }

  /** The outcome of a call that returns nothing but may raise. */
  datatype Outcome = Pass | Fail(error: Error)

  /** A Python value as far as the registry looks at it. `Obj` stands for any
      other object by identity (a plugin, its metadata, ...). */
  datatype Value =
    | NoneValue
    | Bool(b: bool)
    | Int(i: int)
    | Str(s: string)
    | List(items: seq<Value>)
    | Dict(entries: map<string, Value>)
    | Class(className: string)
    | Obj(ref: object)

  /** Python truthiness: None, False, 0 and empty containers are falsy;
      classes and plain objects are truthy. */
  predicate Truthy(v: Value) {
    match v
    case NoneValue => false
    case Bool(b) => b
    case Int(i) => i != 0
    case Str(s) => s != ""
    case List(items) => items != []
    case Dict(entries) => entries != map[]
    case Class(_) => true
    case Obj(_) => true
  }

  /** A check predicate, opaque to the registry. */
  datatype Check = Check(name: string)

  /** A Python callable: its `__name__`, whether it is an `async def`, the
      checks that check decorators have attached to it, and the names of the
      options that disnake derives from its parameters. */
  datatype Callback = Callback(name: string, isCoroutine: bool, checks: seq<Check>, params: seq<string>)
}

/**
 * The few Python runtime notions the adaptation layer handles without looking
 * inside them: argument and result values, the exceptions it can observe, the
 * outcome of an awaited call, and the exception triple handed to `__aexit__`.
 */
module PyValues {

  /** A value passed to a tool or returned by a service method. The layer only moves these around. */
  datatype Value =
    | NoneValue
    | Bool(b: bool)
    | Int(i: int)
    | Str(s: string)
    | List(items: seq<Value>)
    | Dict(entries: map<string, Value>)

  /**
   * Exceptions the layer can raise or observe: a missing dictionary key, a
   * missing attribute, and whatever the foreign client or one of its service
   * methods raises (carried verbatim, never interpreted).
   */
  datatype Exception =
    | KeyError(key: string)
    | AttributeError(attribute: string)
    | ForeignError(message: string)

  /** What awaiting a coroutine gives the caller: a returned value or a raised exception. */
  datatype Outcome = Returned(value: Value) | Raised(exception: Exception)

  /** The `(exc_type, exc_val, exc_tb)` triple `__aexit__` receives; `NoException` is `(None, None, None)`. */
  datatype ExcInfo = NoException | Pending(exception: Exception)

  /** The triple an `async with` block hands to `__aexit__` when its body ended with `o`. */
  function ExcInfoOf(o: Outcome): (e: ExcInfo)
    ensures e.NoException? <==> o.Returned?
    ensures o.Raised? ==> e.exception == o.exception
  {
    match o
    case Returned(_) => NoException
    case Raised(x) => Pending(x)
  }
}

/** Values shared by every part of the model: optional values, results of
    operations that can throw, and the answers of external services. */
module Base {

  /** A JavaScript value that may be `null` or `undefined`. */
  datatype Option<T> = None | Some(value: T)

  /** What a JavaScript `throw` carries: an `Error` object with its message,
      or any other value, which may or may not carry a `message` property. */
  datatype Failure = Error(message: string) | NonError(text: Option<string>)

  /** The outcome of an operation that either returns a value or throws. */
  datatype Result<T> = Ok(value: T) | Err(failure: Failure) {
    /** The value, or `None` for a failure. */
    function ToOption(): (o: Option<T>)
      ensures o.Some? <==> Ok?
      ensures Ok? ==> o.value == value
    {
      match this
      case Ok(v) => Some(v)
      case Err(_) => None
    }
  }

  /** The answer of an awaited call into a service this model does not
      contain (relay, matching engine, RPC node): it answers or it throws. */
  datatype Probe<T> = Answered(answer: T) | Threw(thrown: Failure)

  /** The result of `parseFloat`: a number or NaN. */
  datatype Numeric = Num(number: real) | NaN

  /** JavaScript truthiness of an optional string: present and non-empty. */
  predicate Truthy(s: Option<string>)
  {
    s.Some? && s.value != ""
  }

  /** `catch (e) { throw e instanceof Error ? e : new Error(fallback) }` */
  function AsError(f: Failure, fallback: string): (e: Failure)
    ensures e.Error?
    ensures f.Error? ==> e == f
    ensures f.NonError? ==> e.message == fallback
  {
    match f
    case Error(_) => f
    case NonError(_) => Error(fallback)
  }
}

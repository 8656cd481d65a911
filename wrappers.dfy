/** Option and exception-carrying results shared by every module of the model. */
module Wrappers {

  datatype Option<+T> = None | Some(value: T) {
    function GetOr(default: T): T {
      match this
      case Some(v) => v
      case None => default
    }
  }

  /** The Python exceptions the modelled code raises, catches or lets escape. */
  datatype PyError =
    | HttpError        // requests.HTTPError, raised by raise_for_status
    | TypeError
    | KeyError
    | ValueError
    | OverflowError    // a Python int outside the range of a C int
    | FileNotFound
    | JsonDecodeError

  /** The outcome of a Python call: a value, or the exception that escaped it. */
  datatype Result<+T> = Ok(value: T) | Raised(error: PyError) {
    /** With these three members `:-` propagates the exception, as Python does. */
    predicate IsFailure() {
      Raised?
    }

    function PropagateFailure<U>(): Result<U>
      requires Raised?
    {
      Raised(error)
    }

    function Extract(): T
      requires Ok?
    {
      value
    }
  }

  /** `prefix` followed by what a later step produced, or that step's exception.
      Loops that append in order are proved against this. */
  function Prepend<T>(prefix: seq<T>, r: Result<seq<T>>): Result<seq<T>> {
    match r
    case Ok(rest) => Ok(prefix + rest)
    case Raised(e) => Raised(e)
  }

  lemma PrependNothing<T>(r: Result<seq<T>>)
    ensures Prepend([], r) == r
  {
    if r.Ok? {
      assert [] + r.value == r.value;
    }
  }

  lemma PrependOk<T>(prefix: seq<T>, rest: seq<T>)
    ensures Prepend(prefix, Ok(rest)) == Ok(prefix + rest)
    ensures Prepend(prefix, Ok([])) == Ok(prefix)
  {
    assert prefix + [] == prefix;
  }

  lemma PrependAppend<T>(prefix: seq<T>, x: T, r: Result<seq<T>>)
    ensures Prepend(prefix, Prepend([x], r)) == Prepend(prefix + [x], r)
  {
    if r.Ok? {
      assert prefix + ([x] + r.value) == (prefix + [x]) + r.value;
    }
  }

  /** `try: value = call() except HTTPError: value = fallback`: an HTTPError
      gives the fallback; any other exception escapes. */
  function CatchHttpError<T>(fetched: Result<T>, fallback: T): (r: Result<T>)
    ensures fetched.Ok? ==> r == fetched
    ensures fetched == Raised(HttpError) ==> r == Ok(fallback)
    ensures r.Raised? <==> fetched.Raised? && fetched.error != HttpError
    ensures r.Raised? ==> r.error == fetched.error
  {
    match fetched
    case Ok(v) => Ok(v)
    case Raised(e) => if e == HttpError then Ok(fallback) else Raised(e)
  }
}

/** The optional value and the error-carrying result used across the model:
    a missing DOM node, a Python None or a JavaScript null is `None`, an
    HTTP error is `Failure`. */
module Wrappers {

  datatype Option<+T> = None | Some(value: T)

  datatype Result<+T, +E> = Success(value: T) | Failure(error: E)

  /** `Some(f(x))` for `Some(x)`, as `x.strip() if x else None` does. */
  function MapOption<T, U>(o: Option<T>, f: T -> U): Option<U> {
    match o
    case None => None
    case Some(x) => Some(f(x))
  }
}

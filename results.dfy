/** The two-variant result wrapper of the application (`Ok` / `Err`), and the
    way the rest of the model writes down a Python call that either returns a
    value or raises an exception. */
module Results {

  /** `Ok(value)` wraps a success value, `Err(error)` a caught exception. */
  datatype Result<V, E> = Ok(value: V) | Err(error: E) {

    /** `unwrap()`: an `Ok` hands back its value; an `Err` raises its error. */
    function Unwrap(): (r: Outcome<V, E>)
      ensures Ok? ==> r == Returned(value)
      ensures Err? ==> r == Raised(error)
    {
      match this
      case Ok(v) => Returned(v)
      case Err(e) => Raised(e)
    }

    /** `err()`: `None` for an `Ok`, the wrapped error (not raised) for an `Err`. */
    function ErrorOf(): (r: Option<E>)
      ensures Ok? <==> r == None
      ensures Err? ==> r == Some(error)
    {
      match this
      case Ok(_) => None
      case Err(e) => Some(e)
    }
  }

  /** What a Python call does: return a value or raise an exception. */
  datatype Outcome<V, E> = Returned(value: V) | Raised(exc: E)

  datatype Option<T> = None | Some(value: T)

  /** `__eq__` of both classes: an `Ok` equals only an `Ok` with an equal value,
      an `Err` only an `Err` with an equal error. */
  function Equals<V(==), E(==)>(a: Result<V, E>, b: Result<V, E>): (r: bool)
    ensures r <==> a == b
    ensures a.Ok? != b.Ok? ==> !r
  {
    match a
    case Ok(x) => b.Ok? && x == b.value
    case Err(x) => b.Err? && x == b.error
  }

  /** An `Ok` is never equal to an `Err`, whatever the payloads. */
  lemma OkNeverEqualsErr<V, E>(v: V, e: E)
    ensures !Equals(Ok(v), Err(e)) && !Equals(Err(e), Ok(v))
  {
  }

  /** `unwrap` and `err` split the two variants: exactly one of them yields the payload. */
  lemma UnwrapErrAgree<V, E>(r: Result<V, E>)
    ensures r.Unwrap().Returned? <==> r.ErrorOf() == None
    ensures r.Unwrap().Raised? ==> r.ErrorOf() == Some(r.Unwrap().exc)
  {
  }
}

/** Optional values (Python's None) and operations that may raise ValueError. */
module Wrappers {
  datatype Option<+T> = None | Some(value: T) {
    predicate IsFailure() { None? }

    function PropagateFailure<U>(): Option<U>
      requires None?
    {
      None
    }

    function Extract(): T
      requires Some?
    {
      value
    }
  }

  /** A call either returns a value or raises ValueError, which no caller inside the pipeline catches. */
  datatype Result<+T> = Ok(value: T) | ValueError {
    predicate IsFailure() { ValueError? }

    function PropagateFailure<U>(): Result<U>
      requires ValueError?
    {
      ValueError
    }

    function Extract(): T
      requires Ok?
    {
      value
    }
  }

  /** Python truthiness of an optional string: neither None nor empty. */
  predicate Truthy(s: Option<string>) {
    s.Some? && s.value != ""
  }
}

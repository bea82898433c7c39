/** Optional values and the outcome of an operation that may raise. */
module Results {

  datatype Option<+T> = None | Some(value: T)

  /** The exceptions the services raise, by kind. */
  datatype Failure =
    | Conflict          // a business rule refused the request
    | NoRow             // a query that needs exactly one row found none
    | ManyRows          // a query that allows at most one row found several
    | IntegrityError    // a unique or check constraint of the database

  datatype Result<+T> = Ok(value: T) | Err(reason: Failure) {
    predicate IsFailure() {
      Err?
    }

    function PropagateFailure<U>(): Result<U>
      requires Err?
    {
      Err(reason)
    }

    function Extract(): T
      requires Ok?
    {
      value
    }
  }

  /** `Need` turns a guard into a step of a failing computation. */
  function Need(condition: bool, reason: Failure): Result<()> {
    if condition then Ok(()) else Err(reason)
  }
}

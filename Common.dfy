/** Values shared by every controller: optional values, HTTP replies and
    the database failures the controllers catch. */
module Common {

  datatype Option<+T> = None | Some(value: T)

  /** The given value, or `otherwise` when it is absent (a schema default). */
  function OrElse<T>(given: Option<T>, otherwise: T): T {
    match given
    case Some(v) => v
    case None => otherwise
  }

  /** An update path: the given value when present, else the current one. */
  function Overwrite<T>(given: Option<T>, current: Option<T>): Option<T> {
    if given.Some? then given else current
  }

  /** Why a request failed: a not-found reply the controller writes itself
      (with its fixed message), or an exception raised by the database layer
      (a cast error, a validation error, a lost connection) that the
      controller's `catch` turns into a 400 or 500 reply. */
  datatype Failure = NotFound(message: string) | Rejected

  /** An HTTP reply: a status with a JSON body, or an error status. */
  datatype Reply<+T> = Ok(status: nat, value: T) | Err(status: nat, failure: Failure)

  /** Where an exception from the database layer strikes a mutating request:
      nowhere, before the write reaches the collection, or after it (in the
      query that re-reads and populates the written document). The database
      layer is not part of this model, so this is an input. */
  datatype Fault = NoFault | BeforeWrite | AfterWrite

}

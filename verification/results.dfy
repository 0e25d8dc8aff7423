/** Failure-carrying values used throughout the model in place of Go's
    `(value, error)` pairs and nil pointers. */
module Results {

  /** A possibly-absent value: `None` stands for Go's nil. */
  datatype Option<+T> = None | Some(value: T) {

    /** The carried value, or `default` when absent. */
    function GetOr(default: T): T {
      match this
      case Some(v) => v
      case None => default
    }
  }

  /** Either a value or an error, never both: a Go function returning
      `(nil, err)` on failure is modelled as `Err(err)`. */
  datatype Result<+T, +E> = Ok(value: T) | Err(error: E)
}

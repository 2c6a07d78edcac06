/** Optional values, results and the exceptions the modelled Java code can raise. */
module Results {

  /** Java's Optional, and a nullable reference: None stands for empty / null. */
  datatype Option<+T> = None | Some(value: T)

  /** The Java exceptions that the modelled code can throw. */
  datatype Error =
    | NullPointer           // NullPointerException: a null was dereferenced
    | IllegalArgument       // IllegalArgumentException: UUID.fromString, Role.valueOf
    | ClassCast             // ClassCastException: a document value of the wrong type
    | UnsupportedOperation  // a write through Collections.unmodifiableMap
    | Runtime               // the RuntimeException a failed synchronous fetch rethrows

  /** A value, or the exception the computation raised instead. */
  datatype Result<+T> = Ok(value: T) | Err(error: Error)
}

/** Optional values, results, and the Java exceptions the modelled code can raise. */
module Wrappers {

  /** A Java reference that may be null. */
  datatype Option<+T> = None | Some(value: T)

  /** The outcome of a Java call that either returns a value or throws. */
  datatype Result<+T, +E> = Success(value: T) | Failure(error: E)

  /** The exceptions the modelled operations throw, named after their Java classes. */
  datatype Exception =
    | NullPointerException
    | StringIndexOutOfBoundsException
    | IllegalArgumentException
    | IllegalStateException
    | UnsupportedOperationException
    | ClassCastException
    | FileNotFoundException
    | MappingError
    | InvalidFunctionArgument
    | JsonSyntaxException
}

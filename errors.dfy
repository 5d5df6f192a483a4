/** The two JVM exception classes the engine throws: `check { … }` raises
    IllegalStateException and `require { … }` raises IllegalArgumentException.
    Each carries the exact message text the program builds. */
module Errors {

  datatype Exception =
    | IllegalArgument(message: string)
    | IllegalState(message: string)
}

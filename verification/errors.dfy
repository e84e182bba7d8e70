/**
 * The exceptions the core raises. `int()` on a malformed version component
 * raises ValueError; everything else the resolver refuses is a VhsError
 * carrying its message.
 */
module Errors {

  datatype Error =
    | ValueError(literal: string)
    | VhsError(message: string)

  /** str() of the exception. */
  function Message(e: Error): string {
    match e
    case ValueError(literal) => "invalid literal for int() with base 10: '" + literal + "'"
    case VhsError(message) => message
  }
}

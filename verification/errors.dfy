/** The Python exceptions the bindings raise, with their messages. */
module Errors {
  datatype PyErr = ValueError(message: string) | TypeError(message: string)
}

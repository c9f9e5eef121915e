/** The Python exceptions the screener and the provider layer raise. */
module Errors {

  datatype Error =
    | ValueError(message: string)
    | KeyError(key: string)
    | TypeError(message: string)
    | ZeroDivisionError
    | DataValidationError(message: string)
}

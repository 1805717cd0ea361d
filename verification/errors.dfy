/** Failure-carrying values shared by the engine, the validator and the component. */
module Errors {

  datatype Option<+T> = None | Some(value: T)

  /** The errors the component can show, one constructor per message it raises. */
  datatype Error =
    | InvalidInteger                // the number field does not parse as an integer
    | EmptyList                     // the list field is empty once trimmed
    | InvalidValue(segment: string) // a list segment (trimmed) does not parse as a number
    | NoValues                      // the parsed list holds no value
    | NegativeInput                 // factorial of a negative number
    | InputTooLarge                 // factorial of a number above 20
    | EmptyArray                    // sum of an empty array
    | NonNumericValue               // sum of an array holding NaN
    | ModuleLoadFailed              // the module could not be loaded

  datatype Result<+T> = Ok(value: T) | Err(error: Error)
}

/** The exceptions the program raises or lets through, and the Result/Option
    wrappers every operation of the model returns instead of throwing. */
module Errors {

  /** One constructor per exception class the program distinguishes. */
  datatype Error =
    | UserException(message: string)                                  // user-facing error, exit code 1
    | PlainException(message: string)                                 // a bare \Exception (the region guard)
    | TypeError(fault: TypeFault)                                     // PHP type error: missing key, wrong scalar type
    | S3Exception(awsErrorCode: string, awsErrorMessage: string)      // error answered by S3
    | StsException(awsErrorCode: string, awsErrorMessage: string)     // error answered by STS
    | AzureServiceException(code: int, errorMessage: string)          // error answered by Azure Blob Storage
    | GoogleServiceException(code: int, message: string)              // error answered by Google Cloud

  /** The engine's `TypeError`s under `strict_types`, by where they arise.
      `given` is the PHP type name of the offending value (`null`, `int`,
      `bool`, a class name); `TypeErrorMessage` renders the engine's text. */
  datatype TypeFault =
    | ConfigReturn(getter: string, expected: string, given: string)          // a `Config` getter's return type
    | FirstArgument(callee: string, parameter: string, expected: string, given: string)
    | PropertyAssignment(className: string, property: string, given: string)   // a typed string property

  function TypeErrorMessage(f: TypeFault): string {
    match f
    case ConfigReturn(getter, expected, given) =>
      "Config::" + getter + "(): Return value must be of type " + expected + ", " + given + " returned"
    case FirstArgument(callee, parameter, expected, given) =>
      callee + "(): Argument #1 ($" + parameter + ") must be of type " + expected + ", " + given + " given"
    case PropertyAssignment(className, property, given) =>
      "Cannot assign " + given + " to property " + className + "::$" + property + " of type string"
  }

  /** The outcome of an operation that may throw. */
  datatype Result<+T> = Ok(value: T) | Err(error: Error) {
    predicate IsFailure() { Err? }

    function PropagateFailure<U>(): Result<U>
      requires Err?
    {
      Err(error)
    }

    function Extract(): T
      requires Ok?
    {
      value
    }
  }

  datatype Option<+T> = None | Some(value: T)
}

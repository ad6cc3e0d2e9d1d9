/** The ways an operation of the bank-account model ends: normally, or with
    one of the exceptions the Python code raises. */
module Outcomes {

  /** The message of a failed `assert`, as a tag. */
  datatype Reason =
    | NonPositiveFunds   // "Can't create a account/FD with zero/-ve funds"
    | ShortPassword      // "Please type a password of 8 or more characters"
    | NameInUse          // "Name already in use"
    | PasswordInUse      // "Password already in use"
    | NonPositiveAmount  // "Can't withdraw/deposit/tranfer a zero/-ve sum"
    | SavingsLimit       // "SavingsAccount limit reached"

  /** The exception an operation raises. */
  datatype Error =
    | AssertionFailed(reason: Reason)  // AssertionError
    | WrongPassword                    // Exception("Wrong Password!") from load
    | FileNotFound                     // FileNotFoundError: no record under a name
    | AttributeMissing(attr: string)   // AttributeError on a name that is never set
    | ArgumentCount                    // TypeError: a call with one argument too many

  /** The end of an operation that returns nothing on success. */
  datatype Outcome = Pass | Fail(error: Error)

  /** The end of an operation that returns a value on success. */
  datatype Result<T> = Ok(value: T) | Err(error: Error)

  /** Python's `None` or a value. */
  datatype Option<T> = None | Some(value: T)
}

/** Failure-compatible wrappers shared by every module of the model.
    - Option<T> stands for a JavaScript value that may be `undefined`
      (an absent document field, a failed `Array.find`).
    - Result<T> stands for the outcome of an asynchronous store call
      (`getDocs`, `addDoc`): either the value or an error message.
 */
module Wrappers {

  datatype Option<+T> = None | Some(value: T)

  datatype Result<+T> = Success(value: T) | Failure(error: string)
}

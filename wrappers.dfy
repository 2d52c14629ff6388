/** Optional values, fallible results and the opaque error every request can fail with. */
module Wrappers {

  datatype Option<+T> = None | Some(value: T)

  /** The one error value a consumer sees: transport, status-code and decoding failures
      are not told apart by the view models. */
  datatype Error = Error(description: string)

  /** The outcome of one request (an RxSwift `Single`): a value or an error. */
  datatype Result<+T> = Ok(value: T) | Err(error: Error)
}

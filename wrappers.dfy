/** Small failure-carrying datatypes shared by every module of the model. */
module Wrappers {

  datatype Option<+T> = None | Some(value: T)

  datatype Result<+R, +E> = Success(value: R) | Failure(error: E)

  /** What a request handler hands back to the web framework: a message with
      its status code, or an exception that escaped the handler, which the
      framework turns into its generic 500 page. */
  datatype Response = Response(message: string, status: int) | Unhandled
}

/** Small value types shared by every part of the model: optional values and
    the outcome of an HTTP handler (a value, or a status code with a message). */
module Base {

  datatype Option<+T> = None | Some(value: T)

  /** The reply of a route handler: success with a value, or an error status
      with the message the handler sends in its JSON body. */
  datatype Result<+T> = Ok(value: T) | Err(status: int, message: string)

  /** `xs || ""`-style defaulting of an optional list to the empty list. */
  function OrEmpty<T>(o: Option<seq<T>>): seq<T>
  {
    match o
    case Some(xs) => xs
    case None => []
  }
}

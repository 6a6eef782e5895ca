/** Values shared by the whole model of the call recording controller. */
module Common {
  datatype Option<T> = None | Some(value: T)

  /** The outcome of a call into code outside the model (the calling platform
      client, a dictionary lookup): it returns a value, or it raises an
      exception whose `str(...)` is `message`. */
  datatype Attempt<T> = Ok(value: T) | Raised(message: string)

  /** The response a handler returns: its body text and its HTTP status. */
  datatype Response = Response(text: string, status: int)

  const OkStatus := 200
  const BadRequest := 400
  const ServerError := 500
}

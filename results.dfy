/** Outcomes shared by every endpoint of the back end. */
module Results {

  datatype Option<T> = None | Some(value: T)

  /** The two error categories of the service, each with the detail text the
      endpoint reports (HTTP 404 and HTTP 400 respectively). */
  datatype Error = NotFound(detail: string) | InvalidArgument(detail: string)

  datatype Result<T> = Ok(value: T) | Err(error: Error)
}

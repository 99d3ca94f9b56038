/** What a route handler returns: a JSON value with its status, or an error message with its status. */
module Http {

  datatype Response<T> = Ok(status: int, value: T) | Err(status: int, error: string)
}

/** The two errors the job model raises deliberately, and the result of an operation that
    may raise one of them (a thrown error becomes an `Err`). */
module ExpressError {

  datatype HttpError =
    | BadRequest              // nothing to update
    | NotFound(message: string) // no job with the given id

  datatype Result<T> = Ok(value: T) | Err(error: HttpError)
}

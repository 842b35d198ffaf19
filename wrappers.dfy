/** Optional values (JavaScript `null`/`undefined`) and the outcome of a
    database query, which either returns rows or throws. */
module Wrappers {

  datatype Option<+T> = None | Some(value: T)

  datatype QueryResult<+T> = Returned(value: T) | Threw

  /** An Express response: a JSON body with status 200, or an error status with
      a `{ message }` body. */
  datatype Response<+T> = Json(body: T) | Error(status: int, message: string)
}
